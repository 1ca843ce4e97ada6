/** The URL slug builder of the portfolio page (`createSlug` in src/app/page.tsx).

    A project name becomes a slug in three steps:
      1. it is lower-cased,
      2. every maximal run of characters outside `[a-z0-9]` becomes one `-`,
      3. one leading `-` and one trailing `-` are removed.
    Each step is a function below; `CreateSlug` is their composition.
 */
module Slug {

  /** The character class `[a-z0-9]` of the slug's regular expressions. */
  predicate IsAlnum(c: char) {
    'a' <= c <= 'z' || '0' <= c <= '9'
  }

  /** Every character is in `[a-z0-9]` or is `-`. */
  predicate SlugChars(s: string) {
    forall i :: 0 <= i < |s| ==> IsAlnum(s[i]) || s[i] == '-'
  }

  /** No two consecutive `-`. */
  predicate NoDoubleHyphen(s: string) {
    forall i :: 0 <= i < |s| - 1 ==> !(s[i] == '-' && s[i + 1] == '-')
  }

  /** Neither the first nor the last character is `-`. */
  predicate NoEdgeHyphen(s: string) {
    |s| > 0 ==> s[0] != '-' && s[|s| - 1] != '-'
  }

  /** The shape every slug has. */
  predicate IsSlug(s: string) {
    SlugChars(s) && NoDoubleHyphen(s) && NoEdgeHyphen(s)
  }

  /** `toLowerCase` on one character. ASCII capitals map to their small
      letters; KELVIN SIGN and LATIN CAPITAL LETTER I WITH DOT ABOVE are the
      two code points whose lower-case form holds an ASCII letter. Any other
      character is kept as it is: its true lower-case form lies outside
      `[a-z0-9]` as the character itself does, so the slug does not change. */
  function LowerChar(c: char): (r: string)
    ensures |r| >= 1
    ensures 'A' <= c <= 'Z' ==> r == [(c as int - 'A' as int + 'a' as int) as char]
    ensures IsAlnum(c) || c == '-' ==> r == [c]
  {
    if 'A' <= c <= 'Z' then [(c as int + 32) as char]
    else if c == '\U{212A}' then "k"
    else if c == '\U{130}' then "i\U{307}"
    else [c]
  }

  /** `toLowerCase` on a string, character by character. */
  function Lower(s: string): (r: string)
    ensures |r| >= |s|
  {
    if s == [] then [] else LowerChar(s[0]) + Lower(s[1..])
  }

  /** Skips the run of characters outside `[a-z0-9]` at the front of `t`. */
  function DropSeparators(t: string): (r: string)
    ensures |r| <= |t| && r == t[|t| - |r|..]
    ensures r == [] || IsAlnum(r[0])
    ensures forall i :: 0 <= i < |t| - |r| ==> !IsAlnum(t[i])
  {
    if t == [] || IsAlnum(t[0]) then t else DropSeparators(t[1..])
  }

  /** `.replace(/[^a-z0-9]+/g, "-")`: each maximal run of characters outside
      `[a-z0-9]` becomes a single `-`. */
  function Collapse(t: string): (r: string)
    ensures SlugChars(r) && NoDoubleHyphen(r)
    ensures r == [] <==> t == []
    ensures r != [] ==> (r[0] == '-' <==> !IsAlnum(t[0]))
    decreases |t|
  {
    if t == [] then []
    else if IsAlnum(t[0]) then [t[0]] + Collapse(t[1..])
    else "-" + Collapse(DropSeparators(t[1..]))
  }

  /** `.replace(/^-|-$/g, "")`: one `-` at the start and one at the end are
      removed; on `"-"` the two alternatives overlap and the result is empty. */
  function TrimHyphen(u: string): (r: string)
    ensures SlugChars(u) && NoDoubleHyphen(u) ==> IsSlug(r)
    ensures exists i, j :: 0 <= i <= j <= |u| && r == u[i..j]
              && i <= 1 && |u| - j <= 1
              && (forall k :: 0 <= k < i ==> u[k] == '-')
              && (forall k :: j <= k < |u| ==> u[k] == '-')
              && (|u| > 0 && u[0] == '-' ==> i == 1)
              && (i < |u| && u[|u| - 1] == '-' ==> j == |u| - 1)
  {
    var v := if |u| > 0 && u[0] == '-' then u[1..] else u;
    var r := if |v| > 0 && v[|v| - 1] == '-' then v[..|v| - 1] else v;
    ghost var i := if |u| > 0 && u[0] == '-' then 1 else 0;
    ghost var j := if |v| > 0 && v[|v| - 1] == '-' then i + |v| - 1 else i + |v|;
    assert r == u[i..j];
    r
  }

  /** `createSlug` (src/app/page.tsx). */
  function CreateSlug(name: string): (r: string)
    ensures IsSlug(r)
  {
    TrimHyphen(Collapse(Lower(name)))
  }

  /** The `[a-z0-9]` characters of `s`, in order. */
  function Alnums(s: string): (r: string)
    ensures |r| <= |s|
    ensures forall k :: 0 <= k < |r| ==> IsAlnum(r[k])
  {
    if s == [] then [] else (if IsAlnum(s[0]) then [s[0]] else []) + Alnums(s[1..])
  }

  /** `s` with every `-` deleted. */
  function DeleteHyphens(s: string): (r: string)
    ensures |r| <= |s|
    ensures forall k :: 0 <= k < |r| ==> r[k] != '-'
  {
    if s == [] then [] else (if s[0] == '-' then [] else [s[0]]) + DeleteHyphens(s[1..])
  }

  lemma {:induction false} AlnumsAppend(a: string, b: string)
    ensures Alnums(a + b) == Alnums(a) + Alnums(b)
  {
    if a == [] {
      assert a + b == b;
    } else {
      var ab := a + b;
      assert ab[0] == a[0] && ab[1..] == a[1..] + b;
      AlnumsAppend(a[1..], b);
      calc {
        Alnums(ab);
        (if IsAlnum(a[0]) then [a[0]] else []) + Alnums(a[1..] + b);
        (if IsAlnum(a[0]) then [a[0]] else []) + (Alnums(a[1..]) + Alnums(b));
      }
    }
  }

  /** A prefix of separators contributes nothing to `Alnums`. */
  lemma {:induction false} AlnumsDropSeparators(t: string)
    ensures Alnums(DropSeparators(t)) == Alnums(t)
  {
    if t != [] && !IsAlnum(t[0]) {
      AlnumsDropSeparators(t[1..]);
    }
  }

  lemma {:induction false} AlnumsCollapse(t: string)
    ensures Alnums(Collapse(t)) == Alnums(t)
    decreases |t|
  {
    if t == [] {
    } else if IsAlnum(t[0]) {
      AlnumsCollapse(t[1..]);
      AlnumsAppend([t[0]], Collapse(t[1..]));
    } else {
      var d := DropSeparators(t[1..]);
      AlnumsCollapse(d);
      AlnumsDropSeparators(t[1..]);
      AlnumsAppend("-", Collapse(d));
    }
  }

  /** Only `-` is removed by `TrimHyphen`, so the alphanumerics stay. */
  lemma AlnumsTrimHyphen(u: string)
    ensures Alnums(TrimHyphen(u)) == Alnums(u)
  {
    var v := if |u| > 0 && u[0] == '-' then u[1..] else u;
    if |u| > 0 && u[0] == '-' {
      AlnumsAppend("-", v);
      assert u == "-" + v;
    }
    if |v| > 0 && v[|v| - 1] == '-' {
      AlnumsAppend(v[..|v| - 1], "-");
      assert v == v[..|v| - 1] + "-";
    }
  }

  /** On a string of slug characters, deleting the hyphens keeps exactly the
      alphanumerics. */
  lemma {:induction false} DeleteHyphensOfSlugChars(s: string)
    requires SlugChars(s)
    ensures DeleteHyphens(s) == Alnums(s)
  {
    if s != [] {
      assert SlugChars(s[1..]) by {
        forall i | 0 <= i < |s[1..]| ensures IsAlnum(s[1..][i]) || s[1..][i] == '-' {
          assert s[1..][i] == s[i + 1];
        }
      }
      DeleteHyphensOfSlugChars(s[1..]);
    }
  }

  /** Deleting the hyphens of a slug gives exactly the `[a-z0-9]` characters
      of the lower-cased name, in their order. */
  lemma SlugKeepsAlnums(name: string)
    ensures DeleteHyphens(CreateSlug(name)) == Alnums(Lower(name))
  {
    var t := Lower(name);
    AlnumsCollapse(t);
    AlnumsTrimHyphen(Collapse(t));
    DeleteHyphensOfSlugChars(CreateSlug(name));
  }

  /** A non-empty slug has an alphanumeric: its first character is not a
      hyphen, so it is one. */
  lemma NonEmptySlugHasAlnums(s: string)
    requires IsSlug(s) && s != []
    ensures Alnums(s) != [] && Alnums(s)[0] == s[0]
  {
    assert Alnums(s) == [s[0]] + Alnums(s[1..]);
  }

  /** The slug is empty exactly when the lower-cased name has no `[a-z0-9]`
      character. */
  lemma SlugEmptyIff(name: string)
    ensures CreateSlug(name) == [] <==> Alnums(Lower(name)) == []
  {
    SlugKeepsAlnums(name);
    DeleteHyphensOfSlugChars(CreateSlug(name));
    if CreateSlug(name) != [] {
      NonEmptySlugHasAlnums(CreateSlug(name));
    }
  }

  /** Lower-casing leaves slug characters alone. */
  lemma {:induction false} LowerOfSlugChars(s: string)
    requires SlugChars(s)
    ensures Lower(s) == s
  {
    if s != [] {
      assert SlugChars(s[1..]) by {
        forall i | 0 <= i < |s[1..]| ensures IsAlnum(s[1..][i]) || s[1..][i] == '-' {
          assert s[1..][i] == s[i + 1];
        }
      }
      LowerOfSlugChars(s[1..]);
      assert s == [s[0]] + s[1..];
    }
  }

  /** Collapsing leaves a string of slug characters without doubled hyphens
      alone. */
  lemma {:induction false} CollapseOfCollapsed(s: string)
    requires SlugChars(s) && NoDoubleHyphen(s)
    ensures Collapse(s) == s
    decreases |s|
  {
    if s != [] {
      var tail := s[1..];
      assert SlugChars(tail) && NoDoubleHyphen(tail) by {
        forall i | 0 <= i < |tail| ensures IsAlnum(tail[i]) || tail[i] == '-' {
          assert tail[i] == s[i + 1];
        }
        forall i | 0 <= i < |tail| - 1 ensures !(tail[i] == '-' && tail[i + 1] == '-') {
          assert tail[i] == s[i + 1] && tail[i + 1] == s[i + 2];
        }
      }
      if !IsAlnum(s[0]) {
        assert tail == [] || IsAlnum(tail[0]) by {
          if tail != [] {
            assert s[0] == '-' && tail[0] == s[1];
          }
        }
        assert DropSeparators(tail) == tail;
      }
      CollapseOfCollapsed(tail);
      assert s == [s[0]] + tail;
    }
  }

  /** `createSlug` is idempotent. */
  lemma SlugIdempotent(name: string)
    ensures CreateSlug(CreateSlug(name)) == CreateSlug(name)
  {
    var s := CreateSlug(name);
    LowerOfSlugChars(s);
    CollapseOfCollapsed(s);
    assert Collapse(Lower(s)) == s;
    assert s == [] || (s[0] != '-' && s[|s| - 1] != '-');
  }

  // An independent description of the slug: the maximal runs of `[a-z0-9]`
  // characters ("words") of the lower-cased name, joined by single hyphens.

  /** The run of `[a-z0-9]` characters at the front of `t`. */
  function Run(t: string): (w: string)
    ensures |w| <= |t| && w == t[..|w|]
    ensures forall i :: 0 <= i < |w| ==> IsAlnum(w[i])
    ensures |w| < |t| ==> !IsAlnum(t[|w|])
  {
    if t != [] && IsAlnum(t[0]) then [t[0]] + Run(t[1..]) else []
  }

  /** Every word is a non-empty run of `[a-z0-9]` characters. */
  predicate AlnumWords(ws: seq<string>) {
    forall k :: 0 <= k < |ws| ==> ws[k] != [] && forall i :: 0 <= i < |ws[k]| ==> IsAlnum(ws[k][i])
  }

  /** The maximal runs of `[a-z0-9]` characters of `t`, left to right. */
  function Words(t: string): (ws: seq<string>)
    ensures AlnumWords(ws)
    decreases |t|
  {
    if t == [] then []
    else if !IsAlnum(t[0]) then Words(t[1..])
    else var w := Run(t); [w] + Words(t[|w|..])
  }

  /** The words joined by single hyphens. */
  function JoinHyphen(ws: seq<string>): (r: string)
    ensures ws == [] ==> r == []
  {
    if ws == [] then []
    else if |ws| == 1 then ws[0]
    else ws[0] + "-" + JoinHyphen(ws[1..])
  }

  /** Joining words that are non-empty and alphanumeric gives a string that
      starts and ends with an alphanumeric. */
  lemma {:induction false} JoinHyphenEdges(ws: seq<string>)
    requires AlnumWords(ws) && ws != []
    ensures var r := JoinHyphen(ws); r != [] && IsAlnum(r[0]) && IsAlnum(r[|r| - 1])
  {
    if |ws| > 1 {
      JoinHyphenEdges(ws[1..]);
    }
  }

  predicate EndsWithSeparator(t: string) {
    t != [] && !IsAlnum(t[|t| - 1])
  }

  lemma {:induction false} WordsDropSeparators(t: string)
    ensures Words(DropSeparators(t)) == Words(t)
  {
    if t != [] && !IsAlnum(t[0]) {
      WordsDropSeparators(t[1..]);
    }
  }

  /** Collapsing copies a leading run of alphanumerics unchanged. */
  lemma {:induction false} CollapseRun(t: string)
    ensures Collapse(t) == Run(t) + Collapse(t[|Run(t)|..])
  {
    if t != [] && IsAlnum(t[0]) {
      CollapseRun(t[1..]);
      assert t[|Run(t)|..] == t[1..][|Run(t[1..])|..];
    }
  }

  /** On a string that does not start with a separator, collapsing gives the
      joined words, followed by one hyphen when a separator run ends the
      string. */
  lemma {:induction false} CollapseAsWords(t: string)
    requires t == [] || IsAlnum(t[0])
    ensures Collapse(t) == JoinHyphen(Words(t)) + (if Words(t) != [] && EndsWithSeparator(t) then "-" else "")
    decreases |t|
  {
    if t != [] {
      var w := Run(t);
      var rest := t[|w|..];
      assert w != [];
      assert t == w + rest;
      CollapseRun(t);
      assert Words(t) == [w] + Words(rest);
      if rest == [] {
        assert Words(t) == [w];
        assert Collapse(t) == w;
      } else {
        assert !IsAlnum(rest[0]);
        var d := DropSeparators(rest[1..]);
        assert Collapse(rest) == "-" + Collapse(d);
        assert Words(rest) == Words(d) by {
          WordsDropSeparators(rest[1..]);
        }
        CollapseAsWords(d);
        assert t[|t| - 1] == rest[|rest| - 1];
        if d == [] {
          assert Words(d) == [];
          assert Collapse(t) == w + "-";
          assert JoinHyphen(Words(t)) == w;
          assert !IsAlnum(rest[|rest| - 1]);
        } else {
          assert Words(d) == [Run(d)] + Words(d[|Run(d)|..]);
          var ws := [w] + Words(d);
          assert ws[1..] == Words(d);
          assert JoinHyphen(ws) == w + "-" + JoinHyphen(Words(d));
          var r1 := rest[1..];
          assert d == r1[|r1| - |d|..];
          assert d[|d| - 1] == r1[|r1| - 1];
          assert rest[|rest| - 1] == d[|d| - 1];
          assert EndsWithSeparator(t) == EndsWithSeparator(d);
          var tail := if EndsWithSeparator(d) then "-" else "";
          assert Collapse(d) == JoinHyphen(Words(d)) + tail;
          assert Collapse(t) == w + ("-" + Collapse(d));
          ConcatAssoc(w, "-", JoinHyphen(Words(d)), tail);
        }
      }
    }
  }

  lemma ConcatAssoc3(a: string, b: string, c: string)
    ensures a + (b + c) == a + b + c
  {
  }

  lemma ConcatAssoc(a: string, b: string, c: string, d: string)
    ensures a + (b + (c + d)) == a + b + c + d
  {
  }

  /** Removing an optional leading and trailing hyphen around a string that
      does not start or end with one. */
  lemma TrimAround(j: string, lead: bool, trail: bool)
    requires j == [] ==> !trail
    requires j != [] ==> j[0] != '-' && j[|j| - 1] != '-'
    ensures TrimHyphen((if lead then "-" else "") + j + (if trail then "-" else "")) == j
  {
    var u := (if lead then "-" else "") + j + (if trail then "-" else "");
    var v := if |u| > 0 && u[0] == '-' then u[1..] else u;
    assert v == j + (if trail then "-" else "");
  }

  /** `createSlug` is the words of the lower-cased name joined by single
      hyphens. */
  lemma SlugIsJoinedWords(name: string)
    ensures CreateSlug(name) == JoinHyphen(Words(Lower(name)))
  {
    var t := Lower(name);
    var lead := t != [] && !IsAlnum(t[0]);
    var d := if lead then DropSeparators(t[1..]) else t;
    var leadText := if lead then "-" else "";
    assert Collapse(t) == leadText + Collapse(d);
    assert Words(d) == Words(t) by {
      if lead {
        WordsDropSeparators(t[1..]);
      }
    }
    CollapseAsWords(d);
    var ws := Words(t);
    var j := JoinHyphen(ws);
    var trail := ws != [] && EndsWithSeparator(d);
    var trailText := if trail then "-" else "";
    assert Collapse(d) == j + trailText;
    if ws != [] {
      JoinHyphenEdges(ws);
    }
    TrimAround(j, lead, trail);
    ConcatAssoc3(leadText, j, trailText);
  }
}
