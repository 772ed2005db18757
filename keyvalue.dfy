/**
 * The "name=value" strings of an annotation (its `properties` and its
 * `atmosphereConfig`) are taken apart with Java's `s.split("=")` followed by
 * `nv[0]` and `nv[1]`. This module models exactly that:
 *   - `split` cuts at EVERY '=' (so "k=a=b" gives ["k", "a", "b"]);
 *   - trailing empty pieces are dropped ("k=" gives ["k"], "=" gives []);
 *   - a string without any '=' comes back whole, even when it is empty;
 *   - the key is piece 0 and the value piece 1; fewer than two pieces means
 *     the array index fails, which the model reports as `None`.
 */
module NameValue {
  import opened Options

  /** The separator `split("=")` cuts at. */
  const Separator: char := '='

  /** s cut at every separator, empty pieces included (one more piece than separators). */
  function Pieces(s: string): (r: seq<string>)
    ensures |r| >= 1
    decreases |s|
  {
    if s == [] then [""]
    else
      var rest := Pieces(s[1..]);
      if s[0] == Separator then [""] + rest
      else [[s[0]] + rest[0]] + rest[1..]
  }

  /** What `split` does with limit 0 after cutting: trailing empty pieces are removed. */
  function DropTrailingEmpty(ps: seq<string>): seq<string>
    decreases |ps|
  {
    if ps != [] && ps[|ps| - 1] == "" then DropTrailingEmpty(ps[..|ps| - 1]) else ps
  }

  /** What is dropped is a run of empty pieces at the end, and the result no longer ends in one. */
  lemma {:induction false} DropTrailingEmptyParts(ps: seq<string>)
    ensures |DropTrailingEmpty(ps)| <= |ps| && DropTrailingEmpty(ps) == ps[..|DropTrailingEmpty(ps)|]
    ensures forall i :: |DropTrailingEmpty(ps)| <= i < |ps| ==> ps[i] == ""
    ensures DropTrailingEmpty(ps) == [] || DropTrailingEmpty(ps)[|DropTrailingEmpty(ps)| - 1] != ""
    decreases |ps|
  {
    if ps != [] && ps[|ps| - 1] == "" {
      var front := ps[..|ps| - 1];
      DropTrailingEmptyParts(front);
      var r := DropTrailingEmpty(front);
      assert DropTrailingEmpty(ps) == r;
      assert ps[..|r|] == front[..|r|];
      forall i | |r| <= i < |ps| ensures ps[i] == "" {
        if i < |ps| - 1 { assert ps[i] == front[i]; }
      }
    } else {
      assert ps[..|ps|] == ps;
    }
  }

  /** No piece contains a separator. */
  lemma {:induction false} PiecesNoSeparator(s: string)
    ensures forall i :: 0 <= i < |Pieces(s)| ==> Separator !in Pieces(s)[i]
    decreases |s|
  {
    if s != [] {
      PiecesNoSeparator(s[1..]);
      var rest := Pieces(s[1..]);
      if s[0] != Separator {
        assert Separator !in [s[0]] + rest[0];
      }
    }
  }

  /**
   * Java's `s.split("=")`: the text between separators, without the
   * separators, and without empty pieces at the end once some separator cut.
   */
  function Split(s: string): (r: seq<string>)
    ensures forall i :: 0 <= i < |r| ==> Separator !in r[i]
    ensures Separator !in s ==> r == [s]
    ensures Separator in s ==> r == [] || r[|r| - 1] != ""
  {
    if Separator !in s then [s]
    else
      PiecesNoSeparator(s);
      DropTrailingEmptyParts(Pieces(s));
      DropTrailingEmpty(Pieces(s))
  }

  /** `nv = s.split("=")` followed by reading `nv[0]` and `nv[1]`; `None` when the index fails. */
  function KeyValue(s: string): (r: Option<(string, string)>)
    ensures r.Some? ==> Separator in s && Separator !in r.value.0 && Separator !in r.value.1
  {
    var nv := Split(s);
    if |nv| >= 2 then Some((nv[0], nv[1])) else None
  }

  /** A separator somewhere in s is followed, later on, by a character that is not a separator. */
  predicate HasValueText(s: string)
  {
    exists i, j :: 0 <= i < j < |s| && s[i] == Separator && s[j] != Separator
  }

  /** Index of the first separator of s. */
  function FirstSeparator(s: string): (f: nat)
    requires Separator in s
    ensures f < |s| && s[f] == Separator
    ensures forall i :: 0 <= i < f ==> s[i] != Separator
    decreases |s|
  {
    if s[0] == Separator then 0 else 1 + FirstSeparator(s[1..])
  }

  lemma {:induction false} PiecesPlain(s: string)
    requires Separator !in s
    ensures Pieces(s) == [s]
    decreases |s|
  {
    if s != [] {
      assert Separator !in s[1..];
      PiecesPlain(s[1..]);
      assert [s[0]] + s[1..] == s;
    }
  }

  /** Cutting at a separator that has none before it yields the text before it, then the rest's pieces. */
  lemma {:induction false} PiecesAt(k: string, t: string)
    requires Separator !in k
    ensures Pieces(k + [Separator] + t) == [k] + Pieces(t)
    decreases |k|
  {
    var s := k + [Separator] + t;
    if k == [] {
      assert s[1..] == t;
    } else {
      assert s[1..] == k[1..] + [Separator] + t;
      assert Separator !in k[1..];
      PiecesAt(k[1..], t);
      assert [k[0]] + k[1..] == k;
    }
  }

  lemma {:induction false} PiecesOfSeparators(t: string)
    requires forall i :: 0 <= i < |t| ==> t[i] == Separator
    ensures forall m :: 0 <= m < |Pieces(t)| ==> Pieces(t)[m] == ""
    decreases |t|
  {
    if t != [] {
      PiecesOfSeparators(t[1..]);
    }
  }

  lemma {:induction false} PiecesNonEmpty(t: string, j: nat) returns (m: nat)
    requires j < |t| && t[j] != Separator
    ensures m < |Pieces(t)| && Pieces(t)[m] != ""
    decreases |t|
  {
    if t[0] != Separator {
      m := 0;
    } else {
      var m' := PiecesNonEmpty(t[1..], j - 1);
      m := m' + 1;
    }
  }

  /** The first piece is the text before the first separator (or all of it). */
  lemma {:induction false} PiecesFirst(t: string)
    ensures Separator !in Pieces(t)[0]
    ensures |Pieces(t)[0]| <= |t| && Pieces(t)[0] == t[..|Pieces(t)[0]|]
    ensures |Pieces(t)[0]| == |t| || t[|Pieces(t)[0]|] == Separator
    decreases |t|
  {
    if t != [] {
      PiecesFirst(t[1..]);
    }
  }

  /** s with a separator at its first separator's place split into the text before and after it. */
  lemma SplitAtFirst(s: string) returns (k: string, t: string)
    requires Separator in s
    ensures s == k + [Separator] + t && Separator !in k
    ensures Pieces(s) == [k] + Pieces(t)
    ensures |k| == FirstSeparator(s)
  {
    var f := FirstSeparator(s);
    k, t := s[..f], s[f + 1..];
    assert s == k + [Separator] + t;
    PiecesAt(k, t);
  }

  /** Completeness: key and value are read back from "key=value", with or without further "=..." after it. */
  lemma KeyValueOf(k: string, v: string, rest: string)
    requires Separator !in k && Separator !in v && v != ""
    requires rest == [] || rest[0] == Separator
    ensures KeyValue(k + [Separator] + v + rest) == Some((k, v))
  {
    var s := k + [Separator] + v + rest;
    assert s == k + [Separator] + (v + rest);
    assert s[|k|] == Separator;
    PiecesAt(k, v + rest);
    if rest == [] {
      assert v + rest == v;
      PiecesPlain(v);
    } else {
      assert v + rest == v + [Separator] + rest[1..];
      PiecesAt(v, rest[1..]);
    }
    var ps := Pieces(s);
    assert ps[0] == k && ps[1] == v;
    DropTrailingEmptyParts(ps);
    var r := DropTrailingEmpty(ps);
    assert |r| >= 2;
  }

  lemma PiecesOfDoubleSeparator(k: string, rest: string)
    requires Separator !in k
    ensures Pieces(k + [Separator, Separator] + rest) == [k, ""] + Pieces(rest)
  {
    assert k + [Separator, Separator] + rest == k + [Separator] + ([] + [Separator] + rest);
    PiecesAt(k, [] + [Separator] + rest);
    PiecesAt([], rest);
  }

  /** "key==text" has an EMPTY value: the second piece lies between the two separators. */
  lemma KeyValueEmptyValue(k: string, rest: string, j: nat)
    requires Separator !in k
    requires j < |rest| && rest[j] != Separator
    ensures KeyValue(k + [Separator, Separator] + rest) == Some((k, ""))
  {
    var s := k + [Separator, Separator] + rest;
    assert s[|k|] == Separator;
    PiecesOfDoubleSeparator(k, rest);
    var m := PiecesNonEmpty(rest, j);
    var ps := Pieces(s);
    assert ps[m + 2] != "";
    DropTrailingEmptyParts(ps);
    assert |DropTrailingEmpty(ps)| > m + 2;
  }

  /** Value text after a separator is enough for `nv[1]` to exist. */
  lemma KeyValueOfValueText(s: string)
    requires HasValueText(s)
    ensures KeyValue(s).Some?
  {
    var i, j :| 0 <= i < j < |s| && s[i] == Separator && s[j] != Separator;
    var k, t := SplitAtFirst(s);
    var ps := Pieces(s);
    DropTrailingEmptyParts(ps);
    assert Split(s) == DropTrailingEmpty(ps);
    assert i >= |k|;
    assert t[j - |k| - 1] == s[j];
    var m := PiecesNonEmpty(t, j - |k| - 1);
    assert ps[m + 1] != "";
  }

  /** Without value text after a separator, `split` leaves at most one piece. */
  lemma KeyValueOfNoValueText(s: string)
    requires !HasValueText(s)
    ensures KeyValue(s).None?
  {
    if Separator !in s {
      assert Split(s) == [s];
    } else {
      var k, t := SplitAtFirst(s);
      var ps := Pieces(s);
      DropTrailingEmptyParts(ps);
      assert Split(s) == DropTrailingEmpty(ps);
      forall idx | 0 <= idx < |t| ensures t[idx] == Separator {
        assert s[|k| + 1 + idx] == t[idx];
        assert s[|k|] == Separator;
      }
      PiecesOfSeparators(t);
      assert forall m :: 1 <= m < |ps| ==> ps[m] == Pieces(t)[m - 1];
    }
  }

  /** Exactly the strings without value text after a separator make `nv[1]` fail. */
  lemma KeyValueNone(s: string)
    ensures KeyValue(s).None? <==> !HasValueText(s)
  {
    if HasValueText(s) {
      KeyValueOfValueText(s);
    } else {
      KeyValueOfNoValueText(s);
    }
  }

  /** A parsed pair is the text before the first separator and the first piece of the text after it. */
  lemma SplitFirstTwo(s: string) returns (t: string)
    requires KeyValue(s).Some?
    ensures s == KeyValue(s).value.0 + [Separator] + t && Separator !in KeyValue(s).value.0
    ensures KeyValue(s).value.1 == Pieces(t)[0]
  {
    assert Separator in s;
    var k;
    k, t := SplitAtFirst(s);
    var ps := Pieces(s);
    DropTrailingEmptyParts(ps);
    assert Split(s) == DropTrailingEmpty(ps);
  }

  /** Soundness: a parsed key is the text before the first separator and the value the text up to the next one. */
  lemma KeyValueParts(s: string, k: string, v: string)
    requires KeyValue(s) == Some((k, v))
    ensures Separator !in k && Separator !in v
    ensures |k| + 1 + |v| <= |s|
    ensures s[..|k|] == k && s[|k|] == Separator && s[|k| + 1..|k| + 1 + |v|] == v
    ensures |k| + 1 + |v| == |s| || s[|k| + 1 + |v|] == Separator
  {
    var t := SplitFirstTwo(s);
    PiecesFirst(t);
    assert s[..|k|] == k;
    assert s[|k| + 1..] == t;
    assert s[|k| + 1..|k| + 1 + |v|] == t[..|v|];
  }

  /** "k=a=b": the value stops at the second separator. */
  lemma KeyValueTwoSeparators()
    ensures KeyValue("k=a=b") == Some(("k", "a"))
  {
    KeyValueOf("k", "a", "=b");
    assert "k" + [Separator] + "a" + "=b" == "k=a=b";
  }

  /** A string without a separator, or ending in one, has no value. */
  lemma KeyValueMissingValue()
    ensures KeyValue("k") == None
    ensures KeyValue("k=") == None
  {
    KeyValueNone("k=");
  }
}
