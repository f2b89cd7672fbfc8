/** String operations shared by the Go server and the TypeScript client. */
module Text {

  // ---------------------------------------------------------------- trimming

  /** White space for Go's strings.TrimSpace. */
  predicate GoSpace(c: char) {
    CommonSpace(c) || c == '\U{0085}'
  }

  /** White space and line terminators for String.prototype.trim. */
  predicate JsSpace(c: char) {
    CommonSpace(c) || c == '\U{FEFF}'
  }

  predicate CommonSpace(c: char) {
    || '\U{0009}' <= c <= '\U{000D}'
    || c == ' '
    || c == '\U{00A0}'
    || c == '\U{1680}'
    || '\U{2000}' <= c <= '\U{200A}'
    || c == '\U{2028}' || c == '\U{2029}' || c == '\U{202F}' || c == '\U{205F}' || c == '\U{3000}'
  }

  function TrimLeft(space: char -> bool, s: string): string {
    if s != "" && space(s[0]) then TrimLeft(space, s[1..]) else s
  }

  function TrimRight(space: char -> bool, s: string): string {
    if s != "" && space(s[|s| - 1]) then TrimRight(space, s[..|s| - 1]) else s
  }

  function Trim(space: char -> bool, s: string): string {
    TrimRight(space, TrimLeft(space, s))
  }

  function GoTrim(s: string): string { Trim(GoSpace, s) }

  function JsTrim(s: string): string { Trim(JsSpace, s) }

  /** No white space at either end. */
  predicate Bare(space: char -> bool, s: string) {
    s != "" ==> !space(s[0]) && !space(s[|s| - 1])
  }

  lemma {:induction false} TrimLeftSuffix(space: char -> bool, s: string)
    ensures |TrimLeft(space, s)| <= |s|
    ensures TrimLeft(space, s) == s[|s| - |TrimLeft(space, s)|..]
    ensures TrimLeft(space, s) != "" ==> !space(TrimLeft(space, s)[0])
  {
    if s != "" && space(s[0]) {
      TrimLeftSuffix(space, s[1..]);
    }
  }

  lemma {:induction false} TrimRightPrefix(space: char -> bool, s: string)
    ensures |TrimRight(space, s)| <= |s|
    ensures TrimRight(space, s) == s[..|TrimRight(space, s)|]
    ensures TrimRight(space, s) != "" ==> !space(TrimRight(space, s)[|TrimRight(space, s)| - 1])
  {
    if s != "" && space(s[|s| - 1]) {
      TrimRightPrefix(space, s[..|s| - 1]);
    }
  }

  lemma {:induction false} TrimLeftSpaces(space: char -> bool, s: string)
    ensures forall k :: 0 <= k < |s| - |TrimLeft(space, s)| ==> space(s[k])
  {
    if s != "" && space(s[0]) {
      TrimLeftSpaces(space, s[1..]);
      assert forall k :: 1 <= k < |s| ==> s[k] == s[1..][k - 1];
    }
  }

  lemma {:induction false} TrimRightSpaces(space: char -> bool, s: string)
    ensures forall k :: |TrimRight(space, s)| <= k < |s| ==> space(s[k])
  {
    if s != "" && space(s[|s| - 1]) {
      TrimRightSpaces(space, s[..|s| - 1]);
      assert forall k :: 0 <= k < |s| - 1 ==> s[k] == s[..|s| - 1][k];
    }
  }

  /** Trimming cuts only white space off the two ends. */
  lemma TrimCutsSpaces(space: char -> bool, s: string) returns (i: nat, j: nat)
    ensures i <= j <= |s| && Trim(space, s) == s[i..j]
    ensures forall k :: 0 <= k < i || j <= k < |s| ==> space(s[k])
  {
    var l := TrimLeft(space, s);
    TrimLeftSuffix(space, s);
    TrimLeftSpaces(space, s);
    TrimRightPrefix(space, l);
    TrimRightSpaces(space, l);
    i := |s| - |l|;
    j := i + |Trim(space, s)|;
    assert forall k :: i <= k < |s| ==> s[k] == l[k - i];
  }

  /** Trimming leaves no space at the ends, adds no character, and is the identity on bare text. */
  lemma TrimFacts(space: char -> bool, s: string)
    ensures Bare(space, Trim(space, s))
    ensures forall c :: c in Trim(space, s) ==> c in s
    ensures Bare(space, s) ==> Trim(space, s) == s
  {
    TrimLeftSuffix(space, s);
    TrimRightPrefix(space, TrimLeft(space, s));
    var l := TrimLeft(space, s);
    assert forall c :: c in l ==> c in s;
    assert forall c :: c in l[..|Trim(space, s)|] ==> c in l;
  }

  lemma TrimAfterSpace(space: char -> bool, c: char, s: string)
    requires space(c)
    ensures Trim(space, [c] + s) == Trim(space, s)
  {
  }

  // --------------------------------------------------------------- splitting

  predicate OccursAt(s: string, sep: string, i: int) {
    0 <= i && i + |sep| <= |s| && s[i..i + |sep|] == sep
  }

  /** The first position of sep in s, or -1. */
  function IndexOf(s: string, sep: string): (i: int)
    ensures -1 <= i && (i != -1 ==> i + |sep| <= |s|)
  {
    if |s| < |sep| then -1
    else if s[..|sep|] == sep then 0
    else if s == "" then -1
    else
      var r := IndexOf(s[1..], sep);
      if r == -1 then -1 else r + 1
  }

  /** strings.Split and String.prototype.split with a non-empty separator. */
  function Split(s: string, sep: string): (parts: seq<string>)
    requires sep != ""
    ensures parts != []
    decreases |s|
  {
    var i := IndexOf(s, sep);
    if i == -1 then [s] else [s[..i]] + Split(s[i + |sep|..], sep)
  }

  function Last<T>(xs: seq<T>): T
    requires xs != []
  {
    xs[|xs| - 1]
  }

  function Init<T>(xs: seq<T>): seq<T>
    requires xs != []
  {
    xs[..|xs| - 1]
  }

  function Join(chunks: seq<string>): string {
    if chunks == [] then "" else chunks[0] + Join(chunks[1..])
  }

  /** IndexOf is the least position at which sep occurs. */
  lemma {:induction false} IndexIsFirst(s: string, sep: string)
    ensures IndexOf(s, sep) != -1 ==> OccursAt(s, sep, IndexOf(s, sep))
    ensures forall j :: 0 <= j && (IndexOf(s, sep) == -1 || j < IndexOf(s, sep)) ==> !OccursAt(s, sep, j)
  {
    if |sep| <= |s| && s[..|sep|] != sep && s != "" {
      IndexIsFirst(s[1..], sep);
      forall j | 0 <= j && OccursAt(s, sep, j)
        ensures 1 <= j && OccursAt(s[1..], sep, j - 1)
      {
        assert s[0..|sep|] == s[..|sep|];
        var t, u := s[1..][j - 1..j - 1 + |sep|], s[j..j + |sep|];
        assert forall k :: 0 <= k < |sep| ==> t[k] == u[k];
      }
      var r := IndexOf(s[1..], sep);
      assert r != -1 ==> s[r + 1..r + 1 + |sep|] == s[1..][r..r + |sep|];
    }
  }

  lemma IndexIs(s: string, sep: string, i: nat)
    requires OccursAt(s, sep, i)
    requires forall j :: 0 <= j < i ==> !OccursAt(s, sep, j)
    ensures IndexOf(s, sep) == i
  {
    IndexIsFirst(s, sep);
  }

  lemma SplitAt(a: string, sep: string, b: string)
    requires sep != ""
    requires forall j :: 0 <= j < |a| ==> !OccursAt(a + sep + b, sep, j)
    ensures Split(a + sep + b, sep) == [a] + Split(b, sep)
  {
    var s := a + sep + b;
    assert s[|a|..|a| + |sep|] == sep;
    IndexIs(s, sep, |a|);
    assert s[..|a|] == a && s[|a| + |sep|..] == b;
  }

  /** A field without the separator character ends exactly at that separator. */
  lemma SplitField(a: string, c: char, b: string)
    requires c !in a
    ensures Split(a + [c] + b, [c]) == [a] + Split(b, [c])
  {
    var s := a + [c] + b;
    forall j | 0 <= j < |a|
      ensures !OccursAt(s, [c], j)
    {
      assert s[j..j + 1][0] == s[j] == a[j];
    }
    SplitAt(a, [c], b);
  }

  lemma SplitWhole(a: string, c: char)
    requires c !in a
    ensures Split(a, [c]) == [a]
  {
    forall j | 0 <= j < |a|
      ensures !OccursAt(a, [c], j)
    {
      assert a[j..j + 1][0] == a[j];
    }
    IndexIsFirst(a, [c]);
  }

  lemma IndexInPrefix(x: string, y: string, sep: string)
    requires IndexOf(x, sep) != -1
    ensures IndexOf(x + y, sep) == IndexOf(x, sep)
  {
    var i, s := IndexOf(x, sep), x + y;
    IndexIsFirst(x, sep);
    assert s[i..i + |sep|] == x[i..i + |sep|];
    forall j | 0 <= j < i
      ensures !OccursAt(s, sep, j)
    {
      assert !OccursAt(x, sep, j);
      assert s[j..j + |sep|] == x[j..j + |sep|];
    }
    IndexIs(s, sep, i);
  }

  /** One step of splitting x, and the same step of splitting x followed by more text. */
  lemma SplitStep(x: string, y: string, sep: string) returns (i: int)
    requires sep != ""
    ensures i == -1 ==> Split(x, sep) == [x]
    ensures i != -1 ==> 0 <= i && i + |sep| <= |x|
    ensures i != -1 ==> Split(x, sep) == [x[..i]] + Split(x[i + |sep|..], sep)
    ensures i != -1 ==> Split(x + y, sep) == [x[..i]] + Split(x[i + |sep|..] + y, sep)
  {
    hide IndexOf;
    i := IndexOf(x, sep);
    if i != -1 {
      IndexInPrefix(x, y, sep);
      assert (x + y)[i + |sep|..] == x[i + |sep|..] + y;
      assert (x + y)[..i] == x[..i];
    }
  }

  /** Splitting can stop anywhere: only the last, unfinished part matters for what follows. */
  lemma {:induction false} SplitAppend(x: string, y: string, sep: string)
    requires sep != ""
    ensures Split(x + y, sep) == Init(Split(x, sep)) + Split(Last(Split(x, sep)) + y, sep)
    decreases |x|
  {
    hide IndexOf, Split;
    var i := SplitStep(x, y, sep);
    if i != -1 {
      SplitAppend(x[i + |sep|..], y, sep);
    }
  }
}
