/**
 * Domain-label decomposition: Go's `strings.Split` and `strings.Join` with
 * the separator ".", and the suffix-label field the handler stores for one
 * depth of its label table. Labels are those of section 3.1 of RFC 1035; a
 * fully qualified name ends in "." so its last split element is the empty
 * root label.
 */
module Labels {

  /** `strings.Split(s, ".")`: the pieces between dots, in order. An empty
      string gives one empty piece, so the result is never empty. */
  function Split(s: string): (r: seq<string>)
    ensures |r| >= 1
    ensures forall k | 0 <= k < |r| :: '.' !in r[k]
    decreases |s|
  {
    if s == [] then [""]
    else
      var rest := Split(s[1..]);
      if s[0] == '.' then [""] + rest
      else [[s[0]] + rest[0]] + rest[1..]
  }

  /** `strings.Join(xs, ".")`. */
  function Join(xs: seq<string>): string
  {
    if |xs| == 0 then ""
    else if |xs| == 1 then xs[0]
    else xs[0] + "." + Join(xs[1..])
  }

  /** The value stored for depth `depth` of the label table, from the split
      labels of `name`: the labels from `len - depth` up to (not including)
      the last one, joined again; the whole name when there are fewer than
      `depth` labels. `depth >= 1` is what keeps the slice in bounds; the
      table only uses 2 to 5. */
  function FieldOfLabels(labels: seq<string>, name: string, depth: int): string
    requires depth >= 1
  {
    if |labels| - depth >= 0 then Join(labels[|labels| - depth .. |labels| - 1])
    else name
  }

  /** The label field of depth `depth` of a name. */
  function LabelField(name: string, depth: int): string
    requires depth >= 1
  {
    FieldOfLabels(Split(name), name, depth)
  }

  /** Splitting and joining again gives back the name. */
  lemma {:induction false} JoinSplit(s: string)
    ensures Join(Split(s)) == s
    decreases |s|
  {
    if s != [] {
      var rest := Split(s[1..]);
      JoinSplit(s[1..]);
      if s[0] == '.' {
        assert ([""] + rest)[1..] == rest;
      } else if |rest| > 1 {
        var r := Split(s);
        assert r[0] == [s[0]] + rest[0] && r[1..] == rest[1..];
      }
    }
  }

  lemma {:induction false} SplitNoDot(a: string)
    requires '.' !in a
    ensures Split(a) == [a]
    decreases |a|
  {
    if a != [] {
      SplitNoDot(a[1..]);
      assert [a[0]] + a[1..] == a;
    }
  }

  lemma {:induction false} SplitDotConcat(a: string, b: string)
    requires '.' !in a
    ensures Split(a + "." + b) == [a] + Split(b)
    decreases |a|
  {
    var s := a + "." + b;
    if a == [] {
      assert s[0] == '.' && s[1..] == b;
    } else {
      assert s[0] == a[0] && s[1..] == a[1..] + "." + b;
      SplitDotConcat(a[1..], b);
      assert [a[0]] + a[1..] == a;
    }
  }

  /** Joining labels that hold no dot and splitting again gives them back. */
  lemma {:induction false} SplitJoin(xs: seq<string>)
    requires |xs| >= 1
    requires forall k | 0 <= k < |xs| :: '.' !in xs[k]
    ensures Split(Join(xs)) == xs
  {
    if |xs| == 1 {
      SplitNoDot(xs[0]);
    } else {
      SplitJoin(xs[1..]);
      SplitDotConcat(xs[0], Join(xs[1..]));
      assert [xs[0]] + xs[1..] == xs;
    }
  }

  /** Joining a concatenation puts one dot between the two joins. */
  lemma {:induction false} JoinAppend(xs: seq<string>, ys: seq<string>)
    requires |xs| >= 1 && |ys| >= 1
    ensures Join(xs + ys) == Join(xs) + "." + Join(ys)
  {
    if |xs| > 1 {
      JoinAppend(xs[1..], ys);
      assert (xs + ys)[1..] == xs[1..] + ys;
    } else {
      assert (xs + ys)[1..] == ys;
    }
  }

  /** `s` ends with `suffix`. */
  predicate EndsWith(s: string, suffix: string) {
    |suffix| <= |s| && s[|s| - |suffix|..] == suffix
  }

  /** The field for a depth the name reaches consists of exactly the
      `depth - 1` labels before the last one; for a depth the name does not
      reach it is the whole name. */
  lemma {:induction false} LabelFieldLabels(name: string, depth: int)
    requires depth >= 2
    ensures |Split(name)| >= depth ==>
      Split(LabelField(name, depth)) == Split(name)[|Split(name)| - depth .. |Split(name)| - 1]
    ensures |Split(name)| < depth ==> LabelField(name, depth) == name
  {
    var labels := Split(name);
    if |labels| >= depth {
      var picked := labels[|labels| - depth .. |labels| - 1];
      assert LabelField(name, depth) == Join(picked);
      SplitJoin(picked);
    }
  }

  lemma EndsWithConcat(p: string, q: string)
    ensures EndsWith(p + q, q)
  {
    assert (p + q)[|p + q| - |q|..] == q;
  }

  /** Joining a slice is joining its two halves around one dot. */
  lemma JoinSlices(xs: seq<string>, a: int, b: int, c: int)
    requires 0 <= a < b < c <= |xs|
    ensures Join(xs[a..c]) == Join(xs[a..b]) + "." + Join(xs[b..c])
  {
    assert xs[a..b] + xs[b..c] == xs[a..c];
    JoinAppend(xs[a..b], xs[b..c]);
  }

  /** The last `depth` items of a list, joined, end its join. */
  lemma {:induction false} JoinEndsWithTail(xs: seq<string>, depth: int)
    requires 2 <= depth <= |xs|
    ensures EndsWith(Join(xs), Join(xs[|xs| - depth .. |xs| - 1]) + "." + xs[|xs| - 1])
  {
    var n := |xs|;
    var tailJoin := Join(xs[n - depth .. n - 1]) + "." + xs[n - 1];
    JoinSlices(xs, n - depth, n - 1, n);
    assert xs[n - 1 .. n] == [xs[n - 1]];
    assert Join(xs[n - depth .. n]) == tailJoin;
    assert xs[0 .. n] == xs;
    if n == depth {
      EndsWithConcat([], tailJoin);
    } else {
      JoinSlices(xs, 0, n - depth, n);
      EndsWithConcat(Join(xs[0 .. n - depth]) + ".", tailJoin);
    }
  }

  /** The field for a depth the name reaches, followed by a dot and the last
      label, ends the name: it is read off the name's own end. */
  lemma {:induction false} LabelFieldIsSuffix(name: string, depth: int)
    requires depth >= 2
    requires |Split(name)| >= depth
    ensures EndsWith(name, LabelField(name, depth) + "." + Split(name)[|Split(name)| - 1])
  {
    JoinSplit(name);
    JoinEndsWithTail(Split(name), depth);
  }

  /** For a fully qualified name (one ending in the root's "."), the field
      followed by "." ends the name. */
  lemma LabelFieldOfFqdn(name: string, depth: int)
    requires depth >= 2
    requires |name| >= 1 && name[|name| - 1] == '.'
    requires |Split(name)| >= depth
    ensures EndsWith(name, LabelField(name, depth) + ".")
  {
    LastLabelEmpty(name);
    LabelFieldIsSuffix(name, depth);
    assert Split(name)[|Split(name)| - 1] == "";
  }

  /** A name ending in "." splits into pieces the last of which is empty. */
  lemma {:induction false} LastLabelEmpty(s: string)
    requires |s| >= 1 && s[|s| - 1] == '.'
    ensures Split(s)[|Split(s)| - 1] == ""
    decreases |s|
  {
    if |s| > 1 {
      LastLabelEmpty(s[1..]);
    } else {
      assert s[1..] == [];
    }
  }

  /** A deeper field extends the shallower one to the left: the field of
      depth `e` is some labels, a dot, and the field of depth `d`. */
  lemma {:induction false} LabelFieldNested(name: string, d: int, e: int)
    requires 2 <= d < e
    requires |Split(name)| >= e
    ensures EndsWith(LabelField(name, e), "." + LabelField(name, d))
  {
    var labels := Split(name);
    var n := |labels|;
    var outer, inner := Join(labels[n - e .. n - d]), Join(labels[n - d .. n - 1]);
    assert LabelField(name, d) == inner;
    JoinSlices(labels, n - e, n - d, n - 1);
    assert LabelField(name, e) == outer + "." + inner;
    assert outer + "." + inner == outer + ("." + inner);
    EndsWithConcat(outer, "." + inner);
  }

  /** For a fully qualified name the four depths give the top-level domain,
      the registered domain, the host name and the whole name. */
  lemma LabelFieldExampleFqdn(name: string)
    requires name == "www.example.com."
    ensures LabelField(name, 2) == "com"
    ensures LabelField(name, 3) == "example.com"
    ensures LabelField(name, 4) == "www.example.com"
    ensures LabelField(name, 5) == name
  {
    var xs := ["www", "example", "com", ""];
    SplitExampleFqdn(name);
    assert xs[2..3] == ["com"];
    assert xs[1..3] == ["example", "com"];
    assert xs[0..3] == ["www", "example", "com"];
  }

  /** Without the trailing dot the last label is taken for the root: depth 2
      gives the second-level label and depth 4 already the whole name. */
  lemma LabelFieldExampleRelative(name: string)
    requires name == "www.example.com"
    ensures LabelField(name, 2) == "example"
    ensures LabelField(name, 3) == "www.example"
    ensures LabelField(name, 4) == name
    ensures LabelField(name, 5) == name
  {
    var xs := ["www", "example", "com"];
    SplitExampleRelative(name);
    assert xs[1..2] == ["example"];
    assert xs[0..2] == ["www", "example"];
  }
  /** The labels of the example names. */
  lemma SplitExampleFqdn(name: string)
    requires name == "www.example.com."
    ensures Split(name) == ["www", "example", "com", ""]
  {
    var xs := ["www", "example", "com", ""];
    assert Join(xs) == name;
    SplitJoin(xs);
  }

  lemma SplitExampleRelative(name: string)
    requires name == "www.example.com"
    ensures Split(name) == ["www", "example", "com"]
  {
    var xs := ["www", "example", "com"];
    assert Join(xs) == name;
    SplitJoin(xs);
  }
}
