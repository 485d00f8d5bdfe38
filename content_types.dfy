/**
 * Content types and the prefix search of ContentEditor.view_pages.
 *
 * A content type such as "text/html" is split on '/' with Python's
 * `str.split` semantics (empty segments are kept, "" splits to [""]), and
 * the prefixes "/".join(segments[:i]) are looked up from i = n down to 1;
 * the first registered, non-None editor wins, and the default editor is
 * used when none does.
 */
module ContentTypes {
  import opened Wrappers
  import opened EditorEvents

  const Sep: char := '/'

  /** Python's `s.split("/")`. */
  function Split(s: string): (r: seq<string>)
    ensures |r| >= 1
    ensures forall k :: 0 <= k < |r| ==> Sep !in r[k]
    decreases |s|
  {
    if |s| == 0 then [""]
    else if s[0] == Sep then [""] + Split(s[1..])
    else
      var rest := Split(s[1..]);
      [[s[0]] + rest[0]] + rest[1..]
  }

  /** Python's `"/".join(segs)`. */
  function Join(segs: seq<string>): (r: string)
    ensures |segs| >= 1 ==> segs[0] <= r
    decreases |segs|
  {
    if |segs| == 0 then ""
    else if |segs| == 1 then segs[0]
    else segs[0] + [Sep] + Join(segs[1..])
  }

  lemma {:induction false} JoinAppend(xs: seq<string>, ys: seq<string>)
    requires |xs| >= 1 && |ys| >= 1
    ensures Join(xs + ys) == Join(xs) + [Sep] + Join(ys)
    decreases |xs|
  {
    if |xs| == 1 {
      assert (xs + ys)[1..] == ys;
    } else {
      assert (xs + ys)[1..] == xs[1..] + ys;
      JoinAppend(xs[1..], ys);
    }
  }

  /** Joining the segments of a content type gives it back. */
  lemma {:induction false} JoinSplit(s: string)
    ensures Join(Split(s)) == s
    decreases |s|
  {
    if |s| == 0 {
    } else if s[0] == Sep {
      JoinSplit(s[1..]);
      assert s == [Sep] + s[1..];
    } else {
      var rest := Split(s[1..]);
      JoinSplit(s[1..]);
      if |rest| == 1 {
        assert s == [s[0]] + rest[0];
      } else {
        assert rest == [rest[0]] + rest[1..];
        assert Join(rest) == rest[0] + [Sep] + Join(rest[1..]);
        assert s == [s[0]] + Join(rest);
      }
    }
  }

  lemma {:induction false} SplitCons(x: string, y: string)
    requires Sep !in x
    ensures Split(x + [Sep] + y) == [x] + Split(y)
    decreases |x|
  {
    if |x| == 0 {
      assert x + [Sep] + y == [Sep] + y;
      assert ([Sep] + y)[1..] == y;
    } else {
      var s := x + [Sep] + y;
      assert s[0] == x[0] && s[1..] == x[1..] + [Sep] + y;
      SplitCons(x[1..], y);
      assert [x[0]] + x[1..] == x;
    }
  }

  lemma {:induction false} SplitAtom(x: string)
    requires Sep !in x
    ensures Split(x) == [x]
    decreases |x|
  {
    if |x| > 0 {
      SplitAtom(x[1..]);
      assert [x[0]] + x[1..] == x;
    }
  }

  /** Splitting joined segments that hold no separator gives them back. */
  lemma {:induction false} SplitJoin(segs: seq<string>)
    requires |segs| >= 1
    requires forall k :: 0 <= k < |segs| ==> Sep !in segs[k]
    ensures Split(Join(segs)) == segs
    decreases |segs|
  {
    if |segs| == 1 {
      SplitAtom(segs[0]);
    } else {
      SplitJoin(segs[1..]);
      SplitCons(segs[0], Join(segs[1..]));
      assert segs == [segs[0]] + segs[1..];
    }
  }

  /**
   * The i-th prefix is an initial part of the content type that ends at a
   * segment boundary; the last one is the whole content type.
   */
  lemma PrefixAtBoundary(s: string, i: nat)
    requires 1 <= i <= |Split(s)|
    ensures var key := Join(Split(s)[..i]);
      key <= s && (i < |Split(s)| ==> |key| < |s| && s[|key|] == Sep) && (i == |Split(s)| ==> key == s)
  {
    var segs := Split(s);
    JoinSplit(s);
    if i < |segs| {
      assert segs == segs[..i] + segs[i..];
      JoinAppend(segs[..i], segs[i..]);
    } else {
      assert segs[..i] == segs;
    }
  }

  /** The registry has a non-None editor under the i-th prefix. */
  predicate Hits(editors: map<string, Option<EditorId>>, segs: seq<string>, i: nat)
    requires 1 <= i <= |segs|
  {
    var key := Join(segs[..i]);
    key in editors && editors[key].Some?
  }

  /**
   * The longest prefix of at most i segments that hits, or None when none
   * of prefixes 1..i does.
   */
  function Search(editors: map<string, Option<EditorId>>, segs: seq<string>, i: nat): (r: Option<nat>)
    requires i <= |segs|
    ensures r.Some? ==> 1 <= r.value <= i && Hits(editors, segs, r.value)
    ensures r.Some? ==> forall j :: r.value < j <= i ==> !Hits(editors, segs, j)
    ensures r.None? <==> forall j :: 1 <= j <= i ==> !Hits(editors, segs, j)
    decreases i
  {
    if i == 0 then None
    else if Hits(editors, segs, i) then Some(i)
    else Search(editors, segs, i - 1)
  }

  /** The editor ContentEditor.view_pages selects for a single page of type `ct`. */
  function Resolve(editors: map<string, Option<EditorId>>, default: Option<EditorId>, ct: string): (r: Option<EditorId>)
    ensures r != default ==> r.Some? && exists key :: key in editors && editors[key] == r
  {
    var segs := Split(ct);
    match Search(editors, segs, |segs|)
    case Some(k) =>
      var key := Join(segs[..k]);
      assert key in editors;
      editors[key]
    case None => default
  }

  /** The longest registered prefix decides. */
  lemma ResolveLongest(editors: map<string, Option<EditorId>>, default: Option<EditorId>, ct: string, k: nat)
    requires 1 <= k <= |Split(ct)| && Hits(editors, Split(ct), k)
    requires forall j :: k < j <= |Split(ct)| ==> !Hits(editors, Split(ct), j)
    ensures Resolve(editors, default, ct) == editors[Join(Split(ct)[..k])]
    ensures Resolve(editors, default, ct).Some?
  {
  }

  /** The default is selected exactly when no prefix is registered to a non-None editor (or it is what the longest one holds). */
  lemma ResolveDefault(editors: map<string, Option<EditorId>>, default: Option<EditorId>, ct: string)
    ensures (forall j :: 1 <= j <= |Split(ct)| ==> !Hits(editors, Split(ct), j)) ==> Resolve(editors, default, ct) == default
    ensures Resolve(editors, default, ct) != default ==> Resolve(editors, default, ct).Some?
  {
  }

  /** An editor registered under the whole content type is always selected. */
  lemma ResolveExactType(editors: map<string, Option<EditorId>>, default: Option<EditorId>, ct: string)
    requires ct in editors && editors[ct].Some?
    ensures Resolve(editors, default, ct) == editors[ct]
  {
    var segs := Split(ct);
    PrefixAtBoundary(ct, |segs|);
    ResolveLongest(editors, default, ct, |segs|);
  }

  /**
   * A selected non-default editor is registered under an ancestor of the
   * content type: an initial part of it that ends at a '/' or at its end.
   */
  lemma ResolvedKeyIsAncestor(editors: map<string, Option<EditorId>>, ct: string)
    requires Search(editors, Split(ct), |Split(ct)|).Some?
    ensures var key := Join(Split(ct)[..Search(editors, Split(ct), |Split(ct)|).value]);
      key in editors && editors[key].Some? && key <= ct && (|key| == |ct| || ct[|key|] == Sep)
  {
    var segs := Split(ct);
    var k := Search(editors, segs, |segs|).value;
    PrefixAtBoundary(ct, k);
  }

  const ExampleTypes: map<string, Option<EditorId>> := map["text" := Some(1), "text/html" := Some(2)]

  /** "text" -> 1 and "text/html" -> 2: a page of type "text/html/embedded" goes to 2. */
  lemma ExampleSpecificWins(ct: string)
    requires ct == "text/html/embedded"
    ensures Resolve(ExampleTypes, Some(4), ct) == Some(2)
  {
    var segs := ["text", "html", "embedded"];
    assert Join(segs[1..]) == "html/embedded";
    assert Join(segs) == ct;
    SplitJoin(segs);
    assert segs[..3] == segs && segs[..2] == ["text", "html"];
    assert Join(segs[..2]) == "text/html";
    ResolveLongest(ExampleTypes, Some(4), ct, 2);
  }

  /** Same registry: "text/plain" falls back to the "text" editor 1. */
  lemma ExampleGeneralFallback(ct: string)
    requires ct == "text/plain"
    ensures Resolve(ExampleTypes, Some(4), ct) == Some(1)
  {
    var segs := ["text", "plain"];
    assert Join(segs) == ct;
    SplitJoin(segs);
    assert segs[..2] == segs && segs[..1] == ["text"];
    ResolveLongest(ExampleTypes, Some(4), ct, 1);
  }

  /** Same registry: "image" matches nothing and goes to the default 4. */
  lemma ExampleDefault(ct: string)
    requires ct == "image"
    ensures Resolve(ExampleTypes, Some(4), ct) == Some(4)
  {
    SplitAtom(ct);
    assert [ct][..1] == [ct];
  }
}
