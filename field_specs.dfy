/**
 * Field specifications of the query parser: how a host value naming fields
 * becomes a set of field names, or the NULL sentinel that means "no
 * restriction" (frt_get_fields in ext/r_qparser.c).
 *
 * A host string reaches the C code as a NUL-terminated buffer, so every
 * string operation here works on CStr(s), the part before the first NUL.
 * The C code walks that buffer with a pointer; the model walks it with an
 * offset into the string.
 */
module FieldSpecs {
  import opened Wrappers

  /** The character that separates field names in a single string. */
  const Separator: char := '|'

  /** The whole-string value that stands for "every field". */
  const Wildcard: string := "*"

  /** A field specification after the host's string conversion:
      an array of names, or one string. */
  datatype FieldSpec = Arr(items: seq<string>) | Str(s: string)

  /** strchr on the string that starts at offset `o` of `s`: the position
      of the first `c` at or after `o`, if there is one. */
  function IndexFrom(s: string, c: char, o: nat): (r: Option<nat>)
    requires o <= |s|
    ensures r.None? <==> forall m :: o <= m < |s| ==> s[m] != c
    ensures r.Some? ==> o <= r.value < |s| && s[r.value] == c
    ensures r.Some? ==> forall m :: o <= m < r.value ==> s[m] != c
    decreases |s| - o
  {
    if o == |s| then None
    else if s[o] == c then Some(o)
    else IndexFrom(s, c, o + 1)
  }

  /** The C string a host string's buffer denotes: everything before the first NUL. */
  function CStr(s: string): (c: string)
    ensures '\0' !in c
    ensures c <= s
    ensures |c| < |s| ==> s[|c|] == '\0'
    ensures '\0' !in s ==> c == s
  {
    match IndexFrom(s, '\0', 0)
    case None => s
    case Some(i) => s[..i]
  }

  /** The pieces of `s` between occurrences of `d`, left to right,
      empty pieces included and nothing trimmed. */
  function Split(s: string, d: char): (parts: seq<string>)
    ensures |parts| >= 1
    ensures forall p :: p in parts ==> d !in p
  {
    Pieces(s, d, 0)
  }

  /** The pieces of `s` from offset `o` on: what lies before the first `d`
      at or after `o`, then the pieces after that `d`; with no `d` left,
      the rest of the string. */
  function Pieces(s: string, d: char, o: nat): (parts: seq<string>)
    requires o <= |s|
    ensures |parts| >= 1
    ensures forall p :: p in parts ==> d !in p
    decreases |s| - o
  {
    match IndexFrom(s, d, o)
    case None => [s[o..]]
    case Some(k) => [s[o..k]] + Pieces(s, d, k + 1)
  }

  /** Puts `d` between consecutive pieces: the inverse of Split. */
  function Join(parts: seq<string>, d: char): string
    requires |parts| >= 1
    decreases |parts|
  {
    if |parts| == 1 then parts[0] else parts[0] + [d] + Join(parts[1..], d)
  }

  /** The set of a sequence's elements. */
  function Elems(q: seq<string>): set<string>
  {
    set x | x in q
  }

  /** The names an array specification denotes: each element's C string. */
  function Names(items: seq<string>): set<string>
  {
    set x | x in items :: CStr(x)
  }

  /** The fields a specification denotes, or None (the NULL sentinel) for
      the wildcard, which restricts nothing. */
  function FieldsOf(spec: FieldSpec): (r: Option<set<string>>)
    ensures r.None? <==> spec.Str? && CStr(spec.s) == Wildcard
  {
    match spec
    case Arr(items) => Some(Names(items))
    case Str(s) =>
      if CStr(s) == Wildcard then None else Some(Elems(Split(CStr(s), Separator)))
  }

  /** frt_get_fields: the array branch adds each element's C string in a
      loop; the string branch is NULL for the wildcard and otherwise the
      pieces between '|'s. */
  method GetFields(spec: FieldSpec) returns (fields: Option<set<string>>)
    ensures fields == FieldsOf(spec)
  {
    match spec
    case Arr(items) =>
      var acc: set<string> := {};
      for i := 0 to |items|
        invariant acc == Names(items[..i])
      {
        NamesSnoc(items[..i], items[i]);
        assert items[..i + 1] == items[..i] + [items[i]];
        acc := acc + {CStr(items[i])};
      }
      assert items[..|items|] == items;
      fields := Some(acc);
    case Str(raw) =>
      var str := CStr(raw);
      if str == Wildcard {
        fields := None;
      } else {
        var names := SplitNames(str);
        fields := Some(names);
      }
  }

  /** The string branch of frt_get_fields past the wildcard test: cuts the
      string at each '|' in turn, adding the piece before it, then adds what
      is left after the last '|'. */
  method SplitNames(str: string) returns (names: set<string>)
    ensures names == Elems(Split(str, Separator))
  {
    names := {};
    var s := 0;
    var p := IndexFrom(str, Separator, s);
    while p.Some?
      invariant s <= |str|
      invariant p == IndexFrom(str, Separator, s)
      invariant names + Elems(Pieces(str, Separator, s)) == Elems(Split(str, Separator))
      decreases |str| - s
    {
      WalkStep(str, Separator, s, p.value, names);
      names := names + {str[s..p.value]};
      s := p.value + 1;
      p := IndexFrom(str, Separator, s);
    }
    WalkEnd(str, Separator, s, names);
    names := names + {str[s..]};
  }

  lemma NamesSnoc(items: seq<string>, y: string)
    ensures Names(items + [y]) == Names(items) + {CStr(y)}
  {
    assert forall x :: x in items + [y] <==> x in items || x == y;
  }

  /** One step of the walk: adding the piece before the next `d` to the
      names found so far keeps all names accounted for. */
  lemma WalkStep(s: string, d: char, o: nat, k: nat, acc: set<string>)
    requires o <= |s| && IndexFrom(s, d, o) == Some(k)
    requires acc + Elems(Pieces(s, d, o)) == Elems(Split(s, d))
    ensures acc + {s[o..k]} + Elems(Pieces(s, d, k + 1)) == Elems(Split(s, d))
  {
    ElemsCons(s[o..k], Pieces(s, d, k + 1));
  }

  /** The end of the walk: with no `d` left, the rest of the string is the
      last name. */
  lemma WalkEnd(s: string, d: char, o: nat, acc: set<string>)
    requires o <= |s| && IndexFrom(s, d, o).None?
    requires acc + Elems(Pieces(s, d, o)) == Elems(Split(s, d))
    ensures acc + {s[o..]} == Elems(Split(s, d))
  {
    assert Elems(Pieces(s, d, o)) == Elems([s[o..]]) == {s[o..]};
  }

  lemma ElemsCons(a: string, q: seq<string>)
    ensures Elems([a] + q) == {a} + Elems(q)
  {
    assert forall x :: x in [a] + q <==> x == a || x in q;
  }

  // ---------------------------------------------------------------------------
  // Splitting and joining

  /** With no `d` from `o` on, the rest of the string is the last piece. */
  lemma LastPiece(s: string, d: char, o: nat)
    requires o <= |s| && d !in s[o..]
    ensures Pieces(s, d, o) == [s[o..]]
  {
    forall m | o <= m < |s|
      ensures s[m] != d
    {
      assert s[m] == s[o..][m - o];
    }
  }

  /** A run `p` free of `d` that ends at a `d` is the next piece, and the
      pieces after that `d` follow it. */
  lemma PieceBeforeDelimiter(s: string, d: char, o: nat, p: string, rest: seq<string>)
    requires o + |p| < |s| && s[o..o + |p|] == p && s[o + |p|] == d && d !in p
    requires Pieces(s, d, o + |p| + 1) == rest
    ensures Pieces(s, d, o) == [p] + rest
  {
    forall m | o <= m < o + |p|
      ensures s[m] != d
    {
      assert s[m] == p[m - o];
    }
    assert IndexFrom(s, d, o) == Some(o + |p|);
  }

  /** Splitting and then joining gives back the string. */
  lemma JoinSplit(s: string, d: char)
    ensures Join(Split(s, d), d) == s
  {
    JoinPieces(s, d, 0);
    assert s[0..] == s;
  }

  /** Joining the pieces from offset `o` on gives back the rest of the string. */
  lemma {:induction false} JoinPieces(s: string, d: char, o: nat)
    requires o <= |s|
    ensures Join(Pieces(s, d, o), d) == s[o..]
    decreases |s| - o
  {
    match IndexFrom(s, d, o)
    case None =>
    case Some(k) =>
      var rest := Pieces(s, d, k + 1);
      JoinPieces(s, d, k + 1);
      assert Pieces(s, d, o) == [s[o..k]] + rest;
      assert ([s[o..k]] + rest)[1..] == rest;
      assert s[o..] == s[o..k] + [d] + s[k + 1..];
  }

  /** Joining pieces free of `d` and then splitting gives back the pieces. */
  lemma {:induction false} SplitJoin(parts: seq<string>, d: char)
    requires |parts| >= 1
    requires forall p :: p in parts ==> d !in p
    ensures Split(Join(parts, d), d) == parts
    decreases |parts|
  {
    var p := parts[0];
    assert p in parts;
    if |parts| == 1 {
      assert p[0..] == p;
      LastPiece(p, d, 0);
    } else {
      var rest := parts[1..];
      var x := p + [d];
      var s := Join(parts, d);
      assert s == x + Join(rest, d);
      assert forall q :: q in rest ==> q in parts;
      SplitJoin(rest, d);
      PiecesShift(x, Join(rest, d), d, 0);
      assert s[0..|p|] == p;
      PieceBeforeDelimiter(s, d, 0, p, rest);
      assert parts == [p] + rest;
    }
  }

  /** strchr past a prefix `x` finds what it finds in the rest, moved by |x|. */
  lemma IndexShift(x: string, t: string, c: char, o: nat)
    requires o <= |t|
    ensures IndexFrom(t, c, o).None? ==> IndexFrom(x + t, c, |x| + o).None?
    ensures IndexFrom(t, c, o).Some? ==> IndexFrom(x + t, c, |x| + o) == Some(|x| + IndexFrom(t, c, o).value)
  {
    var s := x + t;
    assert forall m :: o <= m < |t| ==> s[|x| + m] == t[m];
    match IndexFrom(t, c, o)
    case None =>
    case Some(k) =>
      assert s[|x| + k] == c;
  }

  /** The pieces of `x + t` after the prefix `x` are the pieces of `t`. */
  lemma {:induction false} PiecesShift(x: string, t: string, d: char, o: nat)
    requires o <= |t|
    ensures Pieces(x + t, d, |x| + o) == Pieces(t, d, o)
    decreases |t| - o
  {
    var s := x + t;
    IndexShift(x, t, d, o);
    match IndexFrom(t, d, o)
    case None =>
      assert s[|x| + o..] == t[o..];
    case Some(k) =>
      PiecesShift(x, t, d, k + 1);
      assert s[|x| + o..|x| + k] == t[o..k];
  }

  /** `s[i..j]` is a whole piece of `s`: it is bounded on each side by an end
      of `s` or by `d`, and holds no `d`. */
  ghost predicate SegmentAt(s: string, d: char, i: int, j: int)
  {
    && 0 <= i <= j <= |s|
    && (i == 0 || s[i - 1] == d)
    && (j == |s| || s[j] == d)
    && forall m :: i <= m < j ==> s[m] != d
  }

  /** Every piece Split yields is a whole piece of the string. */
  lemma SplitYieldsSegments(s: string, d: char, x: string)
    requires x in Split(s, d)
    ensures exists i, j :: SegmentAt(s, d, i, j) && s[i..j] == x
  {
    PiecesAreSegments(s, d, 0, x);
  }

  /** Every piece from an offset at the start or just after a `d` is a whole
      piece of the string. */
  lemma {:induction false} PiecesAreSegments(s: string, d: char, o: nat, x: string)
    requires o <= |s| && (o == 0 || s[o - 1] == d)
    requires x in Pieces(s, d, o)
    ensures exists i, j :: SegmentAt(s, d, i, j) && s[i..j] == x
    decreases |s| - o
  {
    match IndexFrom(s, d, o)
    case None =>
      assert SegmentAt(s, d, o, |s|) && s[o..|s|] == x;
    case Some(k) =>
      if x == s[o..k] {
        assert SegmentAt(s, d, o, k);
      } else {
        assert x in Pieces(s, d, k + 1);
        PiecesAreSegments(s, d, k + 1, x);
      }
  }

  /** Every whole piece of the string is among those Split yields. */
  lemma SegmentsAreSplit(s: string, d: char, i: int, j: int)
    requires SegmentAt(s, d, i, j)
    ensures s[i..j] in Split(s, d)
  {
    SegmentsArePieces(s, d, 0, i, j);
  }

  /** Every whole piece that starts at or after `o` is among the pieces
      from `o` on. */
  lemma {:induction false} SegmentsArePieces(s: string, d: char, o: nat, i: int, j: int)
    requires SegmentAt(s, d, i, j) && o <= i
    ensures s[i..j] in Pieces(s, d, o)
    decreases |s| - o
  {
    match IndexFrom(s, d, o)
    case None =>
      assert i == o && j == |s|;
      assert s[i..j] == s[o..];
    case Some(k) =>
      if i == o {
        assert j == k;
      } else {
        assert s[i - 1] == d;
        SegmentsArePieces(s, d, k + 1, i, j);
      }
  }

  /** Split yields exactly the maximal runs of `s` free of `d`, including the
      empty ones between adjacent delimiters and at either end. */
  lemma SplitIsSegments(s: string, d: char, x: string)
    ensures x in Split(s, d) <==> exists i, j :: SegmentAt(s, d, i, j) && s[i..j] == x
  {
    if x in Split(s, d) {
      SplitYieldsSegments(s, d, x);
    }
    if exists i, j :: SegmentAt(s, d, i, j) && s[i..j] == x {
      var i, j :| SegmentAt(s, d, i, j) && s[i..j] == x;
      SegmentsAreSplit(s, d, i, j);
    }
  }

  /** No character other than the delimiter appears in the joined string
      unless it appears in one of the pieces. */
  lemma {:induction false} JoinKeepsOut(parts: seq<string>, d: char, c: char)
    requires |parts| >= 1 && c != d
    requires forall p :: p in parts ==> c !in p
    ensures c !in Join(parts, d)
    decreases |parts|
  {
    if |parts| > 1 {
      assert parts[0] in parts;
      assert forall p :: p in parts[1..] ==> p in parts;
      JoinKeepsOut(parts[1..], d, c);
    }
  }

  // ---------------------------------------------------------------------------
  // What a field specification denotes

  /** A string other than "*" with no '|' names exactly one field, itself. */
  lemma SingleName(s: string)
    requires s != Wildcard && Separator !in s && '\0' !in s
    ensures FieldsOf(Str(s)) == Some({s})
  {
    assert s[0..] == s;
    assert Elems([s]) == {s};
  }

  /** A string other than "*" names exactly its '|'-delimited pieces: every
      maximal run free of '|', empty runs included, nothing trimmed. */
  lemma StringNamesPieces(s: string, x: string)
    requires CStr(s) != Wildcard
    ensures FieldsOf(Str(s)).Some?
    ensures x in FieldsOf(Str(s)).value <==>
              exists i, j :: SegmentAt(CStr(s), Separator, i, j) && CStr(s)[i..j] == x
  {
    SplitIsSegments(CStr(s), Separator, x);
  }

  /** Joining names with '|' and parsing the result gives back the set of
      those names, whatever their order and repetitions, unless the joined
      string is the wildcard itself. */
  lemma JoinedNamesRoundTrip(names: seq<string>)
    requires |names| >= 1
    requires forall n :: n in names ==> Separator !in n && '\0' !in n
    requires Join(names, Separator) != Wildcard
    ensures FieldsOf(Str(Join(names, Separator))) == Some(Elems(names))
  {
    JoinKeepsOut(names, Separator, '\0');
    SplitJoin(names, Separator);
  }

  /** An array names the C string of each of its elements and nothing else,
      and repeated elements collapse into one name. */
  lemma ArrayNames(items: seq<string>)
    ensures FieldsOf(Arr(items)).Some?
    ensures forall k :: 0 <= k < |items| ==> CStr(items[k]) in FieldsOf(Arr(items)).value
    ensures forall f :: f in FieldsOf(Arr(items)).value ==> exists k :: 0 <= k < |items| && f == CStr(items[k])
    ensures |FieldsOf(Arr(items)).value| <= |items|
  {
    var names := Names(items);
    forall k | 0 <= k < |items|
      ensures CStr(items[k]) in names
    {
      assert items[k] in items;
    }
    forall f | f in names
      ensures exists k :: 0 <= k < |items| && f == CStr(items[k])
    {
      var x :| x in items && f == CStr(x);
      var k :| 0 <= k < |items| && items[k] == x;
    }
    NamesAtMost(items);
  }

  /** There are no more names than elements. */
  lemma {:induction false} NamesAtMost(items: seq<string>)
    ensures |Names(items)| <= |items|
    decreases |items|
  {
    if items != [] {
      var n := |items| - 1;
      NamesAtMost(items[..n]);
      NamesSnoc(items[..n], items[n]);
      assert items == items[..n] + [items[n]];
    }
  }

  /** Worked case: an empty piece between two delimiters is a name. */
  lemma EmptyPieceExample()
    ensures FieldsOf(Str("a||b")) == Some({"a", "", "b"})
  {
    assert Join(["a", "", "b"], Separator) == "a||b";
    JoinedNamesRoundTrip(["a", "", "b"]);
    assert Elems(["a", "", "b"]) == {"a", "", "b"};
  }

  /** Worked case: a trailing delimiter adds the empty name. */
  lemma TrailingDelimiterExample()
    ensures FieldsOf(Str("a|")) == Some({"a", ""})
  {
    assert Join(["a", ""], Separator) == "a|";
    JoinedNamesRoundTrip(["a", ""]);
    assert Elems(["a", ""]) == {"a", ""};
  }

  /** Worked case: spaces around a name are kept. */
  lemma NoTrimExample()
    ensures FieldsOf(Str(" a |b")) == Some({" a ", "b"})
  {
    assert Join([" a ", "b"], Separator) == " a |b";
    JoinedNamesRoundTrip([" a ", "b"]);
    assert Elems([" a ", "b"]) == {" a ", "b"};
  }

  /** Worked case: "*" inside a list is an ordinary name. */
  lemma StarInListExample()
    ensures FieldsOf(Str("*|a")) == Some({"*", "a"})
  {
    assert Join(["*", "a"], Separator) == "*|a";
    JoinedNamesRoundTrip(["*", "a"]);
    assert Elems(["*", "a"]) == {"*", "a"};
  }

  /** Worked case: "*" inside an array is an ordinary name, and repeated
      array elements collapse into one. */
  lemma ArrayExamples()
    ensures FieldsOf(Arr(["*"])) == Some({"*"})
    ensures FieldsOf(Arr(["a", "a"])) == Some({"a"})
  {
    assert CStr("*") == "*" by { assert "*"[0] != '\0'; }
    assert Names(["*"]) == {"*"};
    assert CStr("a") == "a" by { assert "a"[0] != '\0'; }
    assert Names(["a", "a"]) == {"a"};
  }
}
