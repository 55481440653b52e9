/**
 * The JavaScript string operations the dispatcher relies on: `trim`, `split(" ")`,
 * `filter(Boolean)` and `join(sep)`, and the command-name normalisation built from them.
 */
module Strings {

  /** The characters `String.prototype.trim` removes: ECMAScript WhiteSpace and LineTerminator. */
  predicate IsJsWhitespace(c: char) {
    || c == '\t' || c == '\n' || c == '\U{000B}' || c == '\U{000C}' || c == '\r' || c == ' '
    || c == '\U{00A0}' || c == '\U{1680}' || ('\U{2000}' <= c <= '\U{200A}')
    || c == '\U{2028}' || c == '\U{2029}' || c == '\U{202F}' || c == '\U{205F}'
    || c == '\U{3000}' || c == '\U{FEFF}'
  }

  function TrimStart(s: string): (r: string)
    ensures |r| <= |s| && r == s[|s| - |r|..]
    ensures r == "" || !IsJsWhitespace(r[0])
    ensures forall i | 0 <= i < |s| - |r| :: IsJsWhitespace(s[i])
  {
    if |s| > 0 && IsJsWhitespace(s[0]) then TrimStart(s[1..]) else s
  }

  function TrimEnd(s: string): (r: string)
    ensures |r| <= |s| && r == s[..|r|]
    ensures r == "" || !IsJsWhitespace(r[|r| - 1])
    ensures forall i | |r| <= i < |s| :: IsJsWhitespace(s[i])
  {
    if |s| > 0 && IsJsWhitespace(s[|s| - 1]) then TrimEnd(s[..|s| - 1]) else s
  }

  /** `s.trim()` */
  function Trim(s: string): string {
    TrimEnd(TrimStart(s))
  }

  /** `pieces.join(sep)`: the empty list joins to "", separators go only between pieces. */
  function Join(pieces: seq<string>, sep: string): string {
    if |pieces| == 0 then ""
    else if |pieces| == 1 then pieces[0]
    else pieces[0] + sep + Join(pieces[1..], sep)
  }

  /** `s.split(" ")`: always at least one piece, and no piece holds a space. */
  function Split(s: string): (pieces: seq<string>)
    ensures |pieces| >= 1
    ensures forall i | 0 <= i < |pieces| :: ' ' !in pieces[i]
  {
    if ' ' !in s then [s]
    else
      var k := IndexOfSpace(s);
      [s[..k]] + Split(s[k + 1..])
  }

  /** The position of the first space in `s`. */
  function IndexOfSpace(s: string): (k: nat)
    requires ' ' in s
    ensures k < |s| && s[k] == ' ' && ' ' !in s[..k]
  {
    if s[0] == ' ' then 0 else 1 + IndexOfSpace(s[1..])
  }

  /** `pieces.filter(Boolean)` on strings: drops the empty pieces. */
  function NonEmpty(pieces: seq<string>): (r: seq<string>)
    ensures forall i | 0 <= i < |r| :: r[i] != "" && r[i] in pieces
    ensures forall p | p in pieces && p != "" :: p in r
  {
    if |pieces| == 0 then []
    else if pieces[0] == "" then NonEmpty(pieces[1..])
    else [pieces[0]] + NonEmpty(pieces[1..])
  }

  /** `filter(Boolean)` distributes over concatenation: order and repetitions are kept. */
  lemma {:induction false} NonEmptyConcat(a: seq<string>, b: seq<string>)
    ensures NonEmpty(a + b) == NonEmpty(a) + NonEmpty(b)
    decreases |a|
  {
    if a == [] {
      assert a + b == b;
    } else {
      assert (a + b)[0] == a[0] && (a + b)[1..] == a[1..] + b;
      NonEmptyConcat(a[1..], b);
    }
  }

  /** On one piece, `filter(Boolean)` keeps it exactly when it is non-empty. */
  lemma NonEmptySingleton(p: string)
    ensures NonEmpty([p]) == if p == "" then [] else [p]
  {
  }

  /** `name.trim().split(" ").filter(Boolean).join(" ")` (the normalisation of a command name). */
  function NormalizeName(name: string): string {
    Join(NonEmpty(Split(Trim(name))), " ")
  }

  /**
   * A name the normalisation leaves alone: empty, or with nothing to trim at either end and
   * no empty piece between single spaces.
   */
  predicate IsNormalName(s: string) {
    s == "" || (Trim(s) == s && forall i | 0 <= i < |Split(s)| :: Split(s)[i] != "")
  }

  /** Splitting on a space and joining with a space gives the string back. */
  lemma {:induction false} JoinSplit(s: string)
    ensures Join(Split(s), " ") == s
    decreases |s|
  {
    if ' ' in s {
      var k := IndexOfSpace(s);
      JoinSplit(s[k + 1..]);
      assert Split(s)[1..] == Split(s[k + 1..]);
      assert s == s[..k] + " " + s[k + 1..];
    }
  }

  /** Joining space-free pieces with a space and splitting again gives the pieces back. */
  lemma {:induction false} SplitJoin(pieces: seq<string>)
    requires |pieces| >= 1
    requires forall i | 0 <= i < |pieces| :: ' ' !in pieces[i]
    ensures Split(Join(pieces, " ")) == pieces
    decreases |pieces|
  {
    if |pieces| > 1 {
      var s := Join(pieces, " ");
      var rest := Join(pieces[1..], " ");
      assert s == pieces[0] + " " + rest;
      assert ' ' !in pieces[0];
      assert s[|pieces[0]|] == ' ';
      assert ' ' !in s[..|pieces[0]|] by { assert s[..|pieces[0]|] == pieces[0]; }
      IndexOfFirst(s, |pieces[0]|);
      assert s[..|pieces[0]|] == pieces[0];
      assert s[|pieces[0]| + 1..] == rest;
      SplitJoin(pieces[1..]);
    } else {
      assert Join(pieces, " ") == pieces[0];
    }
  }

  /** The first space of a string is the only space with no space before it. */
  lemma {:induction false} IndexOfFirst(s: string, k: nat)
    requires k < |s| && s[k] == ' ' && ' ' !in s[..k]
    ensures ' ' in s && IndexOfSpace(s) == k
    decreases k
  {
    assert s[k] in s;
    assert k > 0 ==> s[..k][0] == s[0];
    if s[0] != ' ' {
      assert s[1..][..k - 1] == s[..k][1..];
      IndexOfFirst(s[1..], k - 1);
    }
  }

  /** The first character of a join is that of its first piece. */
  lemma {:induction false} JoinFirst(pieces: seq<string>, sep: string)
    requires |pieces| >= 1 && pieces[0] != ""
    ensures |Join(pieces, sep)| > 0 && Join(pieces, sep)[0] == pieces[0][0]
  {
  }

  /** The last character of a join is that of its last piece. */
  lemma {:induction false} JoinLast(pieces: seq<string>, sep: string)
    requires |pieces| >= 1 && pieces[|pieces| - 1] != ""
    ensures var j := Join(pieces, sep); |j| > 0 && j[|j| - 1] == pieces[|pieces| - 1][|pieces[|pieces| - 1]| - 1]
    decreases |pieces|
  {
    if |pieces| > 1 {
      JoinLast(pieces[1..], sep);
    }
  }

  /** A string with a non-space first character splits into a first piece starting with it. */
  lemma SplitFirst(s: string)
    requires |s| > 0 && s[0] != ' '
    ensures Split(s)[0] != "" && Split(s)[0][0] == s[0]
  {
    if ' ' in s {
      var k := IndexOfSpace(s);
      assert k > 0;
    }
  }

  /** A string with a non-space last character splits into a last piece ending with it. */
  lemma {:induction false} SplitLast(s: string)
    requires |s| > 0 && s[|s| - 1] != ' '
    ensures Last(Split(s)) != "" && Last(Last(Split(s))) == Last(s)
    decreases |s|
  {
    if ' ' in s {
      var k := IndexOfSpace(s);
      assert k != |s| - 1;
      var t := s[k + 1..];
      assert |t| > 0 && t[|t| - 1] == s[|s| - 1];
      SplitLast(t);
      var rest := Split(t);
      assert Split(s) == [s[..k]] + rest;
      assert Last([s[..k]] + rest) == Last(rest);
    } else {
      assert Split(s) == [s];
    }
  }

  function Last<T>(s: seq<T>): T
    requires |s| > 0
  {
    s[|s| - 1]
  }

  /** Dropping empty pieces keeps a non-empty first piece first. */
  lemma NonEmptyFirst(pieces: seq<string>)
    requires |pieces| >= 1 && pieces[0] != ""
    ensures |NonEmpty(pieces)| >= 1 && NonEmpty(pieces)[0] == pieces[0]
  {
  }

  /** Dropping empty pieces keeps a non-empty last piece last. */
  lemma {:induction false} NonEmptyLast(pieces: seq<string>)
    requires |pieces| >= 1 && pieces[|pieces| - 1] != ""
    ensures var r := NonEmpty(pieces); |r| >= 1 && r[|r| - 1] == pieces[|pieces| - 1]
    decreases |pieces|
  {
    if |pieces| > 1 {
      NonEmptyLast(pieces[1..]);
    }
  }

  /** Pieces without empty ones are left alone by `filter(Boolean)`. */
  lemma {:induction false} NonEmptyIdentity(pieces: seq<string>)
    requires forall i | 0 <= i < |pieces| :: pieces[i] != ""
    ensures NonEmpty(pieces) == pieces
    decreases |pieces|
  {
    if |pieces| > 0 {
      NonEmptyIdentity(pieces[1..]);
    }
  }

  /** A string whose ends are not whitespace is its own trim. */
  lemma TrimIdentity(s: string)
    requires s == "" || (!IsJsWhitespace(s[0]) && !IsJsWhitespace(s[|s| - 1]))
    ensures Trim(s) == s
  {
  }

  /** Non-empty, space-free pieces whose outer ends are not whitespace join to a normal name. */
  lemma JoinIsNormal(ps: seq<string>)
    requires |ps| >= 1
    requires forall i | 0 <= i < |ps| :: ps[i] != "" && ' ' !in ps[i]
    requires !IsJsWhitespace(ps[0][0]) && !IsJsWhitespace(ps[|ps| - 1][|ps[|ps| - 1]| - 1])
    ensures IsNormalName(Join(ps, " "))
  {
    JoinFirst(ps, " ");
    JoinLast(ps, " ");
    TrimIdentity(Join(ps, " "));
    SplitJoin(ps);
  }

  /** Every normalised name is a normal name: normalisation cannot leave work for a second pass. */
  lemma NormalizeIsNormal(name: string)
    ensures IsNormalName(NormalizeName(name))
  {
    var t := Trim(name);
    var sp := Split(t);
    var ps := NonEmpty(sp);
    if ps != [] {
      assert t != "" by { assert Split("") == [""]; }
      assert !IsJsWhitespace(t[0]) && !IsJsWhitespace(t[|t| - 1]);
      SplitFirst(t);
      SplitLast(t);
      NonEmptyFirst(sp);
      NonEmptyLast(sp);
      assert ps[0] == sp[0];
      assert ps[|ps| - 1] == Last(sp);
      forall i | 0 <= i < |ps| ensures ps[i] != "" && ' ' !in ps[i] {
        assert ps[i] in sp;
      }
      JoinIsNormal(ps);
    }
  }

  /** Normalisation leaves a normal name unchanged. */
  lemma NormalizeFixesNormal(s: string)
    requires IsNormalName(s)
    ensures NormalizeName(s) == s
  {
    if s == "" {
      assert Split("") == [""];
    } else {
      NonEmptyIdentity(Split(s));
      JoinSplit(s);
    }
  }

  /** Normalising twice is normalising once. */
  lemma NormalizeIdempotent(name: string)
    ensures NormalizeName(NormalizeName(name)) == NormalizeName(name)
  {
    NormalizeIsNormal(name);
    NormalizeFixesNormal(NormalizeName(name));
  }
}
