/**
 * The list handling of the handwritten/printed/mixed crop data set: the label
 * file written while mixed crops are generated, loading list files, balancing
 * the three classes by sampling, shuffling, the train/validation split, and
 * grouping a list by label for the preview. The random draws are an abstract
 * stream: the k-th index drawn is `rand(k)` reduced by remainder into the
 * range needed. CPython instead draws `getrandbits` and draws again on a value
 * out of range; both reach every index in range.
 */
module HtrDataset {
  import opened Py

  /** The numbers a random generator hands out, in order. */
  type Randomness = nat -> nat

  // ---------------------------------------------------------------------------
  // List files

  /**
   * `f.readlines()`: the lines of a text, each with its newline; a final line
   * without one as it is. `text` is the file's text after text mode's
   * universal-newline translation, so "\r\n" and "\r" have already become "\n".
   */
  function ReadLines(text: string): seq<string> {
    var parts := Split(text, '\n');
    var last := parts[|parts| - 1];
    seq(|parts| - 1, i requires 0 <= i < |parts| - 1 => parts[i] + "\n") + (if last == "" then [] else [last])
  }

  /** What the comprehension keeps of one line: the stripped line, unless it is blank. */
  function Label(line: string): Option<string> {
    if Strip(line) == [] then None else Some(Strip(line))
  }

  /** `load_labels`: the stripped lines, blank ones removed, in file order. */
  function LoadLabels(lines: seq<string>): seq<string> {
    Somes(seq(|lines|, i requires 0 <= i < |lines| => Label(lines[i])))
  }

  /** `"\n".join(xs) + "\n"`, the text a list file is written with. */
  function ListText(xs: seq<string>): string {
    Join("\n", xs) + "\n"
  }

  /** A list entry as it is written and loaded back: stripped, not blank, one line. */
  predicate Entry(x: string) {
    x != [] && Strip(x) == x && '\n' !in x
  }

  /** Loaded entries are stripped and never blank. */
  lemma LoadedShape(lines: seq<string>)
    ensures forall x :: x in LoadLabels(lines) ==> x != [] && Strip(x) == x
  {
    var xs := seq(|lines|, i requires 0 <= i < |lines| => Label(lines[i]));
    assert LoadLabels(lines) == Somes(xs);
    SomesFrom(xs);
    forall x | x in Somes(xs) ensures x != [] && Strip(x) == x {
      var i :| 0 <= i < |xs| && xs[i] == Some(x);
      LabelShape(lines[i]);
    }
  }

  lemma LabelShape(line: string)
    ensures Label(line).Some? ==> Label(line).value != [] && Strip(Label(line).value) == Label(line).value
  {
    StripIdempotent(line);
  }

  lemma StripNewline(x: string)
    requires Entry(x)
    ensures Strip(x + "\n") == x
  {
    StripEnds(x);
    var s := x + "\n";
    assert !IsSpace(s[0]);
    StripLeftFixed(s);
    assert s[..|s| - 1] == x;
    StripRightFixed(x);
  }

  lemma StripEnds(x: string)
    requires x != [] && Strip(x) == x
    ensures !IsSpace(x[0]) && !IsSpace(x[|x| - 1])
  {
  }

  /** Writing a list of entries and loading the file back gives the same list. */
  lemma ListRoundTrip(xs: seq<string>)
    requires forall i :: 0 <= i < |xs| ==> Entry(xs[i])
    ensures LoadLabels(ReadLines(ListText(xs))) == xs
  {
    if xs == [] {
      EmptyListText();
    } else {
      var lines := ReadLines(ListText(xs));
      ReadListLines(xs);
      var ls := seq(|lines|, i requires 0 <= i < |lines| => Label(lines[i]));
      forall i | 0 <= i < |xs| ensures ls[i] == Some(xs[i]) {
        StripNewline(xs[i]);
      }
      SomesAll(ls, xs);
    }
  }

  /** The file of an empty list is one blank line, which loads as nothing. */
  lemma EmptyListText()
    ensures LoadLabels(ReadLines(ListText([]))) == []
  {
    assert ListText([]) == "\n";
    assert Split("", '\n') == [""];
    assert Split("\n", '\n') == ["", ""];
    assert ReadLines("\n") == ["\n"];
    assert Label("\n") == None by {
      assert AllSpace("\n");
    }
  }

  /** The lines read back from a non-empty list file are its entries, each with its newline. */
  lemma ReadListLines(xs: seq<string>)
    requires xs != [] && forall i :: 0 <= i < |xs| ==> Entry(xs[i])
    ensures ReadLines(ListText(xs)) == seq(|xs|, i requires 0 <= i < |xs| => xs[i] + "\n")
  {
    forall i | 0 <= i < |xs| ensures '\n' !in xs[i] { }
    SplitJoinThen(xs, "", '\n');
    assert ListText(xs) == Join(['\n'], xs) + ['\n'] + "";
    assert Split("", '\n') == [""];
    assert Split(ListText(xs), '\n') == xs + [""];
  }

  // ---------------------------------------------------------------------------
  // The label file of the generated mixed crops

  const OutputDir: string := "train_data/mixedcrop"
  const MixedLabel: nat := 2

  /** `os.path.join(output_dir, f"mixed_{i:04d}.jpg")`. */
  function SavePath(i: nat): string {
    OutputDir + "/mixed_" + ZeroPad4(i) + ".jpg"
  }

  /** `f"{save_path}\t{label_id}\n"`. */
  function LabelLine(i: nat): string {
    SavePath(i) + "\t" + NatToStr(MixedLabel) + "\n"
  }

  /** The iterations whose two source images both loaded, in order. */
  function Made(created: seq<bool>): seq<nat> {
    if created == [] then []
    else Made(created[..|created| - 1]) + (if created[|created| - 1] then [|created| - 1] else [])
  }

  /** What the label file holds after the loop: one line per crop that was made. */
  function LabelLines(created: seq<bool>): seq<string> {
    var idx := Made(created);
    seq(|idx|, k requires 0 <= k < |idx| => LabelLine(idx[k]))
  }

  /** The generation loop of the second method, as far as the label file goes. */
  method WriteLabelFile(created: seq<bool>) returns (lines: seq<string>)
    ensures lines == LabelLines(created)
  {
    lines := [];
    for i := 0 to |created|
      invariant lines == LabelLines(created[..i])
    {
      assert created[..i + 1][..i] == created[..i];
      if created[i] {
        lines := lines + [LabelLine(i)];
      }
    }
    assert created[..|created|] == created;
  }

  /**
   * The file names a line exactly for the iterations that made a crop, in
   * increasing order, so no crop is listed twice.
   */
  lemma {:induction false} MadeExactly(created: seq<bool>)
    ensures forall k :: 0 <= k < |Made(created)| ==> Made(created)[k] < |created|
    ensures forall i :: 0 <= i < |created| ==> (created[i] <==> i in Made(created))
    ensures forall k, l :: 0 <= k < l < |Made(created)| ==> Made(created)[k] < Made(created)[l]
    decreases |created|
  {
    if created != [] {
      var n := |created| - 1;
      MadeExactly(created[..n]);
      forall i | 0 <= i < n ensures created[i] == created[..n][i] { }
    }
  }

  /** The number of label lines is the number of crops that were made. */
  lemma {:induction false} MadeCount(created: seq<bool>)
    ensures |LabelLines(created)| == multiset(created)[true]
    decreases |created|
  {
    if created != [] {
      var n := |created| - 1;
      MadeCount(created[..n]);
      assert created == created[..n] + [created[n]];
    }
  }

  // ---------------------------------------------------------------------------
  // Random sampling and shuffling

  const SampleTooLarge: string := "Sample larger than population or is negative"

  /**
   * `random.sample(xs, k)` by the pool method: the i-th pick takes a random
   * position of what is left of the pool, and the pool's last element fills
   * the gap. The result holds k elements drawn from distinct positions.
   */
  method Sample(xs: seq<string>, k: nat, rand: Randomness) returns (r: Result<seq<string>>)
    ensures r.Raised? <==> k > |xs|
    ensures r.Raised? ==> r.msg == SampleTooLarge
    ensures r.Ok? ==> |r.value| == k && multiset(r.value) <= multiset(xs)
  {
    var n := |xs|;
    if k > n {
      return Raised(SampleTooLarge);
    }
    var pool := xs;
    var result: seq<string> := [];
    assert pool[..n] == xs;
    for i := 0 to k
      invariant |result| == i && |pool| == n
      invariant multiset(result) + multiset(pool[..n - i]) == multiset(xs)
    {
      var j := rand(i) % (n - i);
      var picked := pool[j];
      Picked(pool, n - i, j);
      pool := pool[j := pool[n - i - 1]];
      assert multiset(result + [picked]) == multiset(result) + multiset([picked]);
      result := result + [picked];
    }
    return Ok(result);
  }

  /** Taking out the j-th element and putting the last in its place leaves the rest of the multiset. */
  lemma Picked(pool: seq<string>, top: nat, j: nat)
    requires j < top <= |pool|
    ensures multiset([pool[j]]) + multiset(pool[j := pool[top - 1]][..top - 1]) == multiset(pool[..top])
  {
    var m := top - 1;
    if j == m {
      assert pool[j := pool[top - 1]][..top - 1] == pool[..m];
      assert pool[..top] == pool[..m] + [pool[j]];
    } else {
      FilledGap(pool, top, j);
      AroundGap(pool, top, j);
      SwapOut(pool[..j], pool[j], pool[j + 1..m], pool[m]);
    }
  }

  /** The first top elements read front, the j-th, middle, last. */
  lemma AroundGap(pool: seq<string>, top: nat, j: nat)
    requires j < top - 1 && top <= |pool|
    ensures pool[..top] == pool[..j] + [pool[j]] + pool[j + 1..top - 1] + [pool[top - 1]]
  {
    var parts := pool[..j] + [pool[j]] + pool[j + 1..top - 1] + [pool[top - 1]];
    forall i | 0 <= i < top ensures pool[i] == parts[i] {
      if j < i < top - 1 {
        assert parts[i] == pool[j + 1..top - 1][i - j - 1];
      }
    }
  }

  /** With the last element moved into position j < top - 1, the first top - 1 elements read front, last, middle. */
  lemma FilledGap(pool: seq<string>, top: nat, j: nat)
    requires j < top - 1 && top <= |pool|
    ensures pool[j := pool[top - 1]][..top - 1] == pool[..j] + [pool[top - 1]] + pool[j + 1..top - 1]
  {
    var after := pool[j := pool[top - 1]][..top - 1];
    var parts := pool[..j] + [pool[top - 1]] + pool[j + 1..top - 1];
    forall i | 0 <= i < top - 1 ensures after[i] == parts[i] {
      if i > j {
        assert parts[i] == pool[j + 1..top - 1][i - j - 1];
      }
    }
  }

  /** Removing x from f + [x] + md + [y] and moving y into its place leaves f + [y] + md. */
  lemma SwapOut<T>(f: seq<T>, x: T, md: seq<T>, y: T)
    ensures multiset([x]) + multiset(f + [y] + md) == multiset(f + [x] + md + [y])
  {
    calc {
      multiset(f + [x] + md + [y]);
      multiset(f) + multiset([x]) + multiset(md) + multiset([y]);
      multiset([x]) + (multiset(f) + multiset([y]) + multiset(md));
      multiset([x]) + multiset(f + [y] + md);
    }
  }

  /** `random.shuffle(a)`: from the last position down, swap each element with a random earlier or same one. */
  method Shuffle(a: array<string>, rand: Randomness)
    modifies a
    ensures multiset(a[..]) == multiset(old(a[..]))
  {
    var i := a.Length;
    while i > 1
      invariant 0 <= i <= a.Length
      invariant multiset(a[..]) == multiset(old(a[..]))
    {
      i := i - 1;
      var j := rand(a.Length - 1 - i) % (i + 1);
      a[i], a[j] := a[j], a[i];
    }
  }

  /** Drawing from a list without repeats gives a list without repeats. */
  lemma SampleDistinct(xs: seq<string>, r: seq<string>)
    requires multiset(r) <= multiset(xs)
    requires forall i, j :: 0 <= i < j < |xs| ==> xs[i] != xs[j]
    ensures forall i, j :: 0 <= i < j < |r| ==> r[i] != r[j]
  {
    forall x ensures multiset(xs)[x] <= 1 {
      CountAtMostOne(xs, x);
    }
    forall i, j | 0 <= i < j < |r| ensures r[i] != r[j] {
      PairCount(r, i, j);
    }
  }

  /** Two equal entries at different positions count twice. */
  lemma PairCount(r: seq<string>, i: nat, j: nat)
    requires i < j < |r|
    ensures r[i] == r[j] ==> multiset(r)[r[i]] >= 2
  {
    if r[i] == r[j] {
      assert r == r[..i] + [r[i]] + r[i + 1..j] + [r[j]] + r[j + 1..];
    }
  }

  lemma {:induction false} CountAtMostOne(xs: seq<string>, x: string)
    requires forall i, j :: 0 <= i < j < |xs| ==> xs[i] != xs[j]
    ensures multiset(xs)[x] <= 1
    decreases |xs|
  {
    if xs != [] {
      CountAtMostOne(xs[1..], x);
      assert xs == [xs[0]] + xs[1..];
      if xs[0] == x {
        assert x !in xs[1..];
      }
    }
  }

  // ---------------------------------------------------------------------------
  // Balancing and the split

  function Min3(a: nat, b: nat, c: nat): (m: nat)
    ensures m <= a && m <= b && m <= c
    ensures m == a || m == b || m == c
  {
    if a <= b && a <= c then a else if b <= c then b else c
  }

  /**
   * `int(n * 0.2)`, the validation share. The script computes it in floating
   * point; for every n below 2^50 the rounding error stays under the distance
   * to the next integer, so it equals n / 5.
   */
  function ValSize(n: nat): nat {
    n / 5
  }

  /**
   * The combine step: each class is sampled down to the smallest class's
   * size, the three samples are joined and shuffled, and the first fifth
   * becomes the validation set. Also returns the three samples.
   */
  method Combine(handwritten: seq<string>, printed: seq<string>, mixed: seq<string>,
                 rh: Randomness, rp: Randomness, rm: Randomness, rs: Randomness)
    returns (train: seq<string>, val: seq<string>, hs: seq<string>, ps: seq<string>, ms: seq<string>)
    ensures var m := Min3(|handwritten|, |printed|, |mixed|);
            |hs| == m && |ps| == m && |ms| == m
    ensures multiset(hs) <= multiset(handwritten) && multiset(ps) <= multiset(printed) && multiset(ms) <= multiset(mixed)
    ensures multiset(val + train) == multiset(hs + ps + ms)
    ensures |val| == ValSize(|hs + ps + ms|) && |val + train| == 3 * |hs|
  {
    var minCount := Min3(|handwritten|, |printed|, |mixed|);
    var h := Sample(handwritten, minCount, rh);
    var p := Sample(printed, minCount, rp);
    var m := Sample(mixed, minCount, rm);
    hs, ps, ms := h.value, p.value, m.value;
    var combined := hs + ps + ms;
    var a := new string[|combined|](i requires 0 <= i < |combined| => combined[i]);
    assert a[..] == combined;
    Shuffle(a, rs);
    var shuffled := a[..];
    var valSize := ValSize(|shuffled|);
    val := shuffled[..valSize];
    train := shuffled[valSize..];
    assert val + train == shuffled;
  }

  /** The validation and training sets partition the shuffled list: validation first, then the rest. */
  lemma SplitPartition(shuffled: seq<string>)
    ensures var v := ValSize(|shuffled|);
            && shuffled[..v] + shuffled[v..] == shuffled
            && |shuffled[..v]| * 5 <= |shuffled| < (|shuffled[..v]| + 1) * 5
  {
    var v := ValSize(|shuffled|);
    assert shuffled[..v] + shuffled[v..] == shuffled;
  }

  // ---------------------------------------------------------------------------
  // Grouping by label

  /** `path, label = line.split('\t')`, then `int(label)`. */
  function ParseLine(line: string): Result<(string, int)> {
    Unpack(Split(line, '\t'))
  }

  /** Unpacking the parts into a path and a label, then reading the label as an integer. */
  function Unpack(parts: seq<string>): Result<(string, int)> {
    if |parts| < 2 then Raised("not enough values to unpack (expected 2, got " + NatToStr(|parts|) + ")")
    else if |parts| > 2 then Raised("too many values to unpack (expected 2)")
    else match ParseInt(parts[1])
      case Raised(e) => Raised(e)
      case Ok(lab) => Ok((parts[0], lab))
  }

  /** Each line parsed on its own. */
  function Parses(lines: seq<string>): seq<Result<(string, int)>> {
    seq(|lines|, i requires 0 <= i < |lines| => ParseLine(lines[i]))
  }

  /** The class buckets 0, 1 and 2 after the grouping loop has seen lines parsed as `rs`. */
  function GroupFold(rs: seq<Result<(string, int)>>): (r: Result<seq<seq<string>>>)
    ensures r.Ok? ==> |r.value| == 3
  {
    if rs == [] then Ok([[], [], []])
    else match GroupFold(rs[..|rs| - 1])
      case Raised(e) => Raised(e)
      case Ok(b) =>
        match rs[|rs| - 1]
        case Raised(e) => Raised(e)
        case Ok((path, lab)) =>
          if 0 <= lab < 3 then Ok(b[lab := b[lab] + [path]]) else Ok(b)
  }

  /** The grouping loop over the loaded lines. */
  method GroupByClass(lines: seq<string>) returns (r: Result<seq<seq<string>>>)
    ensures r == GroupFold(Parses(lines))
  {
    ghost var rs := Parses(lines);
    var classDict: seq<seq<string>> := [[], [], []];
    for i := 0 to |lines|
      invariant GroupFold(rs[..i]) == Ok(classDict)
    {
      var parsed := ParseLine(lines[i]);
      assert parsed == rs[i];
      PrefixSnoc(rs, i);
      var next := FileLine(classDict, parsed);
      GroupSnoc(rs[..i], parsed, classDict);
      if next.Raised? {
        GroupStops(rs, i + 1);
        return next;
      }
      classDict := next.value;
    }
    assert rs[..|lines|] == rs;
    return Ok(classDict);
  }

  /** One pass of the loop body: a line that failed to parse raises, a known label files the path. */
  method FileLine(classDict: seq<seq<string>>, parsed: Result<(string, int)>) returns (r: Result<seq<seq<string>>>)
    requires |classDict| == 3
    ensures parsed.Raised? ==> r == Raised(parsed.msg)
    ensures parsed.Ok? && 0 <= parsed.value.1 < 3 ==>
              r == Ok(classDict[parsed.value.1 := classDict[parsed.value.1] + [parsed.value.0]])
    ensures parsed.Ok? && !(0 <= parsed.value.1 < 3) ==> r == Ok(classDict)
  {
    if parsed.Raised? {
      return Raised(parsed.msg);
    }
    var (path, lab) := parsed.value;
    if 0 <= lab < 3 {
      return Ok(classDict[lab := classDict[lab] + [path]]);
    }
    return Ok(classDict);
  }

  /** One more line: an error is raised, a known label files the path, any other label is skipped. */
  lemma GroupStep(rs: seq<Result<(string, int)>>, b: seq<seq<string>>)
    requires rs != [] && GroupFold(rs[..|rs| - 1]) == Ok(b)
    ensures var last := rs[|rs| - 1];
            GroupFold(rs) == if last.Raised? then Raised(last.msg)
                             else if 0 <= last.value.1 < 3 then Ok(b[last.value.1 := b[last.value.1] + [last.value.0]])
                             else Ok(b)
  {
  }

  lemma PrefixSnoc<T>(xs: seq<T>, i: nat)
    requires i < |xs|
    ensures xs[..i + 1] == xs[..i] + [xs[i]]
  {
  }

  /** The fold over one more parsed line, in terms of the buckets so far. */
  lemma GroupSnoc(rs: seq<Result<(string, int)>>, x: Result<(string, int)>, b: seq<seq<string>>)
    requires GroupFold(rs) == Ok(b)
    ensures GroupFold(rs + [x]) == if x.Raised? then Raised(x.msg)
                                   else if 0 <= x.value.1 < 3 then Ok(b[x.value.1 := b[x.value.1] + [x.value.0]])
                                   else Ok(b)
  {
    assert (rs + [x])[..|rs|] == rs;
    GroupStep(rs + [x], b);
  }

  /** An error in a prefix is the result of the whole fold. */
  lemma {:induction false} GroupStops(rs: seq<Result<(string, int)>>, n: nat)
    requires n <= |rs| && GroupFold(rs[..n]).Raised?
    ensures GroupFold(rs) == GroupFold(rs[..n])
    decreases |rs| - n
  {
    if n < |rs| {
      assert rs[..n + 1][..n] == rs[..n];
      GroupStops(rs, n + 1);
    } else {
      assert rs[..n] == rs;
    }
  }

  /** The paths of the entries labelled `c`, in order. */
  function Bucket(pairs: seq<(string, int)>, c: int): seq<string> {
    Somes(seq(|pairs|, i requires 0 <= i < |pairs| => if pairs[i].1 == c then Some(pairs[i].0) else None))
  }

  lemma BucketSnoc(pairs: seq<(string, int)>, p: (string, int), c: int)
    ensures Bucket(pairs + [p], c) == Bucket(pairs, c) + (if p.1 == c then [p.0] else [])
  {
    var xs := seq(|pairs|, i requires 0 <= i < |pairs| => if pairs[i].1 == c then Some(pairs[i].0) else None);
    var ys := seq(|pairs + [p]|, i requires 0 <= i < |pairs + [p]| =>
                if (pairs + [p])[i].1 == c then Some((pairs + [p])[i].0) else None);
    assert ys == xs + [if p.1 == c then Some(p.0) else None];
    SomesSnoc(xs, if p.1 == c then Some(p.0) else None);
  }

  /**
   * When every line parses, bucket c holds exactly the paths of the lines
   * labelled c, in order, and lines with any other label are dropped.
   */
  lemma {:induction false} GroupBuckets(rs: seq<Result<(string, int)>>, pairs: seq<(string, int)>)
    requires |pairs| == |rs|
    requires forall i :: 0 <= i < |rs| ==> rs[i] == Ok(pairs[i])
    ensures GroupFold(rs) == Ok([Bucket(pairs, 0), Bucket(pairs, 1), Bucket(pairs, 2)])
    decreases |rs|
  {
    if rs != [] {
      var n := |rs| - 1;
      GroupBuckets(rs[..n], pairs[..n]);
      GroupStep(rs, [Bucket(pairs[..n], 0), Bucket(pairs[..n], 1), Bucket(pairs[..n], 2)]);
      var q := pairs[..n] + [pairs[n]];
      assert q == pairs;
      BucketSnoc(pairs[..n], pairs[n], 0);
      BucketSnoc(pairs[..n], pairs[n], 1);
      BucketSnoc(pairs[..n], pairs[n], 2);
      assert Bucket(q, 0) == Bucket(pairs, 0) && Bucket(q, 1) == Bucket(pairs, 1) && Bucket(q, 2) == Bucket(pairs, 2);
      var b := [Bucket(pairs[..n], 0), Bucket(pairs[..n], 1), Bucket(pairs[..n], 2)];
      var want := [Bucket(pairs, 0), Bucket(pairs, 1), Bucket(pairs, 2)];
      var (path, lab) := pairs[n];
      assert Bucket(pairs, 0) == b[0] + (if lab == 0 then [path] else []);
      assert Bucket(pairs, 1) == b[1] + (if lab == 1 then [path] else []);
      assert Bucket(pairs, 2) == b[2] + (if lab == 2 then [path] else []);
      assert b[0] + [] == b[0] && b[1] + [] == b[1] && b[2] + [] == b[2];
      if lab == 0 {
        assert b[0 := b[0] + [path]] == want;
      } else if lab == 1 {
        assert b[1 := b[1] + [path]] == want;
      } else if lab == 2 {
        assert b[2 := b[2] + [path]] == want;
      } else {
        assert b == want;
      }
    }
  }

  /** The first line that does not parse decides the error the grouping raises. */
  lemma {:induction false} GroupFirstError(rs: seq<Result<(string, int)>>, i: nat)
    requires i < |rs| && rs[i].Raised?
    requires forall j :: 0 <= j < i ==> rs[j].Ok?
    ensures GroupFold(rs) == Raised(rs[i].msg)
  {
    var pre := rs[..i];
    var pairs := seq(i, j requires 0 <= j < i => rs[j].value);
    GroupBuckets(pre, pairs);
    assert rs[..i + 1][..i] == pre;
    GroupStops(rs, i + 1);
  }

  /** The grouping succeeds exactly when every line parses. */
  lemma GroupOk(rs: seq<Result<(string, int)>>)
    ensures GroupFold(rs).Ok? <==> forall i :: 0 <= i < |rs| ==> rs[i].Ok?
  {
    if forall i :: 0 <= i < |rs| ==> rs[i].Ok? {
      GroupBuckets(rs, seq(|rs|, i requires 0 <= i < |rs| => rs[i].value));
    } else {
      var k :| 0 <= k < |rs| && rs[k].Raised?;
      FirstRaised(rs, k);
      var i :| 0 <= i <= k && rs[i].Raised? && forall j :: 0 <= j < i ==> rs[j].Ok?;
      GroupFirstError(rs, i);
    }
  }

  lemma {:induction false} FirstRaised(rs: seq<Result<(string, int)>>, k: nat)
    requires k < |rs| && rs[k].Raised?
    ensures exists i :: 0 <= i <= k && rs[i].Raised? && forall j :: 0 <= j < i ==> rs[j].Ok?
  {
    if forall j :: 0 <= j < k ==> rs[j].Ok? {
    } else {
      var k' :| 0 <= k' < k && rs[k'].Raised?;
      FirstRaised(rs, k');
    }
  }

  lemma SplitWithout(s: string, sep: char)
    requires sep !in s
    ensures Split(s, sep) == [s]
  {
    SplitPrefix(s, "", sep);
    assert s + "" == s;
  }

  /** A line without a tab cannot be unpacked into a path and a label. */
  lemma NoTabRaises(line: string)
    requires '\t' !in line
    ensures ParseLine(line) == Raised("not enough values to unpack (expected 2, got 1)")
  {
    SplitWithout(line, '\t');
  }

  /** A line with two tabs has too many parts to unpack. */
  lemma TwoTabsRaise(a: string, b: string, c: string)
    requires '\t' !in a && '\t' !in b
    ensures ParseLine(a + "\t" + b + "\t" + c) == Raised("too many values to unpack (expected 2)")
  {
    var t := b + "\t" + c;
    assert a + "\t" + b + "\t" + c == a + ([ '\t' ] + t);
    SplitAfterLine(a, t, '\t');
    assert b + "\t" + c == b + (['\t'] + c);
    SplitAfterLine(b, c, '\t');
  }

  lemma SplitTabbed(path: string, d: string)
    requires '\t' !in path && '\t' !in d
    ensures Split(path + "\t" + d, '\t') == [path, d]
  {
    assert path + "\t" + d == path + (['\t'] + d);
    SplitAfterLine(path, d, '\t');
    SplitWithout(d, '\t');
  }

  /** A path, a tab and a label with no tab in either unpack into that path and that label. */
  lemma ParseTabbed(path: string, d: string)
    requires '\t' !in path && '\t' !in d
    ensures ParseLine(path + "\t" + d).Ok? <==> ParseInt(d).Ok?
    ensures ParseInt(d).Ok? ==> ParseLine(path + "\t" + d).value == (path, ParseInt(d).value)
  {
    SplitTabbed(path, d);
  }

  lemma SavePathShape(i: nat)
    ensures '\t' !in SavePath(i) && '\n' !in SavePath(i)
    ensures SavePath(i)[0] == 't'
  {
    var z := ZeroPad4(i);
    var p := SavePath(i);
    assert p == OutputDir + "/mixed_" + z + ".jpg";
    forall k | 0 <= k < |p| ensures p[k] != '\t' && p[k] != '\n' {
      if k < 27 {
        assert p[k] == (OutputDir + "/mixed_")[k];
      } else if k < 27 + |z| {
        assert p[k] == z[k - 27];
      } else {
        assert p[k] == ".jpg"[k - 27 - |z|];
      }
    }
  }

  lemma StrippedLabelLine(i: nat)
    ensures Strip(LabelLine(i)) == SavePath(i) + "\t" + "2"
  {
    var path := SavePath(i);
    SavePathShape(i);
    assert NatToStr(MixedLabel) == "2";
    var x := path + "\t" + "2";
    assert LabelLine(i) == x + "\n";
    assert !IsSpace(x[0]) && !IsSpace(x[|x| - 1]);
    StripLeftFixed(x);
    StripRightFixed(x);
    assert '\n' !in x;
    StripNewline(x);
  }

  lemma ParseTwo(path: string)
    ensures Unpack([path, "2"]) == Ok((path, 2))
  {
    ParseIntTwo();
  }

  lemma ParseIntTwo()
    ensures ParseInt("2") == Ok(2)
  {
    StripLeftFixed("2");
    StripRightFixed("2");
    assert "2"[..0] == "";
    assert DigitsValue("2") == 2;
  }

  /** A line of the generated label file, once stripped, groups into the mixed class under its save path. */
  lemma LabelLineParses(i: nat)
    ensures ParseLine(Strip(LabelLine(i))) == Ok((SavePath(i), MixedLabel as int))
  {
    var path := SavePath(i);
    StrippedLabelLine(i);
    SavePathShape(i);
    SplitTabbed(path, "2");
    ParseTwo(path);
  }

  /** `picked`: up to five paths from each bucket, drawn from distinct positions. */
  method Pick(bucket: seq<string>, rand: Randomness) returns (picked: seq<string>)
    ensures |picked| == if |bucket| < 5 then |bucket| else 5
    ensures multiset(picked) <= multiset(bucket)
  {
    var k := if |bucket| < 5 then |bucket| else 5;
    var r := Sample(bucket, k, rand);
    picked := r.value;
  }
}
