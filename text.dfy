/**
 * Character and string helpers shared by the question processor: the part of
 * JavaScript's string behaviour the source relies on (`toLowerCase`, the `\s`
 * class, `trim`, `includes`, template-literal number formatting, `+=` building).
 */
module Text {

  // ---------------------------------------------------------------- case

  predicate IsUpper(c: char) { 'A' <= c <= 'Z' }

  /** `toLowerCase` on one character; only the ASCII letters are mapped. */
  function Lower(c: char): (d: char)
    ensures !IsUpper(d)
    ensures IsUpper(c) ==> d as int == c as int + 32
    ensures !IsUpper(c) ==> d == c
  {
    if IsUpper(c) then (c as int + 32) as char else c
  }

  function ToLower(s: string): (r: string)
    ensures |r| == |s|
    ensures forall i :: 0 <= i < |s| ==> r[i] == Lower(s[i])
  {
    seq(|s|, i requires 0 <= i < |s| => Lower(s[i]))
  }

  predicate NoUpper(s: string) { forall i :: 0 <= i < |s| ==> !IsUpper(s[i]) }

  lemma ToLowerFixesLowercase(s: string)
    requires NoUpper(s)
    ensures ToLower(s) == s
  {
  }

  // ---------------------------------------------------------- whitespace

  /**
   * The characters JavaScript's `\s` matches, which are also exactly the
   * characters `String.prototype.trim` removes (WhiteSpace and LineTerminator).
   */
  const JsWhitespace: set<char> := {
    '\t', '\n', '\U{000B}', '\U{000C}', '\r', ' ', '\U{00A0}', '\U{1680}',
    '\U{2000}', '\U{2001}', '\U{2002}', '\U{2003}', '\U{2004}', '\U{2005}',
    '\U{2006}', '\U{2007}', '\U{2008}', '\U{2009}', '\U{200A}',
    '\U{2028}', '\U{2029}', '\U{202F}', '\U{205F}', '\U{3000}', '\U{FEFF}'
  }

  predicate Avoids(s: string, drop: set<char>) { forall i :: 0 <= i < |s| ==> s[i] !in drop }

  /** A word of lowercase ASCII letters holds no whitespace. */
  lemma LettersAvoidWhitespace(w: string)
    requires forall i :: 0 <= i < |w| ==> 'a' <= w[i] <= 'z'
    ensures Avoids(w, JsWhitespace)
  {
  }

  /** `s.replace(/[...]/g, '')`: every character of `drop` removed, the rest kept in order. */
  function Without(s: string, drop: set<char>): (r: string)
    ensures |r| <= |s|
  {
    if s == [] then []
    else (if s[0] in drop then [] else [s[0]]) + Without(s[1..], drop)
  }

  /** What `Without` keeps is free of `drop` and comes from `s`. */
  lemma {:induction false} WithoutAvoids(s: string, drop: set<char>)
    ensures Avoids(Without(s, drop), drop)
    ensures forall c :: c in Without(s, drop) ==> c in s && c !in drop
  {
    if s != [] {
      WithoutAvoids(s[1..], drop);
      var head: string := if s[0] in drop then [] else [s[0]];
      assert Without(s, drop) == head + Without(s[1..], drop);
      forall c | c in Without(s, drop) ensures c in s && c !in drop {
        if c !in head {
          assert c in Without(s[1..], drop);
        }
      }
    }
  }

  lemma {:induction false} WithoutKeepsAvoided(s: string, drop: set<char>)
    requires Avoids(s, drop)
    ensures Without(s, drop) == s
  {
    if s != [] {
      WithoutKeepsAvoided(s[1..], drop);
    }
  }

  lemma {:induction false} WithoutAppend(a: string, b: string, drop: set<char>)
    ensures Without(a + b, drop) == Without(a, drop) + Without(b, drop)
  {
    if a != [] {
      assert (a + b)[1..] == a[1..] + b;
      WithoutAppend(a[1..], b, drop);
    } else {
      assert a + b == b;
    }
  }

  /** Removing a set of separators from `a sep b` joins the two words. */
  lemma JoinWithout(a: string, sep: char, b: string, drop: set<char>)
    requires sep in drop && Avoids(a, drop) && Avoids(b, drop)
    ensures Without(a + [sep] + b, drop) == a + b
  {
    var left := a + [sep];
    assert Without(left + b, drop) == Without(left, drop) + Without(b, drop) by {
      WithoutAppend(left, b, drop);
    }
    assert Without(left, drop) == Without(a, drop) + Without([sep], drop) by {
      WithoutAppend(a, [sep], drop);
    }
    assert Without(a, drop) == a by {
      WithoutKeepsAvoided(a, drop);
    }
    assert Without(b, drop) == b by {
      WithoutKeepsAvoided(b, drop);
    }
    assert Without([sep], drop) == [] by {
      assert [sep][1..] == [];
    }
  }

  function TrimStart(s: string): string
  {
    if s != [] && s[0] in JsWhitespace then TrimStart(s[1..]) else s
  }

  function TrimEnd(s: string): string
  {
    if s != [] && s[|s| - 1] in JsWhitespace then TrimEnd(s[..|s| - 1]) else s
  }

  /** `String.prototype.trim`. */
  function Trim(s: string): string
  {
    TrimEnd(TrimStart(s))
  }

  // ----------------------------------------------------------- substrings

  /** `p` occurs in `s` starting at index `i`. */
  predicate OccursAt(s: string, p: string, i: nat)
  {
    i + |p| <= |s| && s[i..i + |p|] == p
  }

  /** `s.includes(p)`. */
  predicate Contains(s: string, p: string)
  {
    exists i: nat | i <= |s| :: OccursAt(s, p, i)
  }

  predicate StartsWith(s: string, p: string) { |p| <= |s| && s[..|p|] == p }

  predicate EndsWith(s: string, p: string) { |p| <= |s| && s[|s| - |p|..] == p }

  /** `a` occurs in `s` and ends no later than some occurrence of `b` begins. */
  ghost predicate Before(s: string, a: string, b: string)
  {
    exists i: nat, j: nat :: OccursAt(s, a, i) && OccursAt(s, b, j) && i + |a| <= j
  }

  lemma ContainsAt(s: string, p: string, i: nat)
    requires OccursAt(s, p, i)
    ensures Contains(s, p)
  {
  }

  /** Substring containment is transitive. */
  lemma ContainsTransitive(a: string, b: string, c: string)
    requires Contains(a, b) && Contains(b, c)
    ensures Contains(a, c)
  {
    var i: nat :| i <= |a| && OccursAt(a, b, i);
    var j: nat :| j <= |b| && OccursAt(b, c, j);
    forall k | 0 <= k < |c|
      ensures a[i + j..i + j + |c|][k] == c[k]
    {
      assert c[k] == b[j + k];
      assert b[j + k] == a[i + (j + k)];
    }
    assert a[i + j..i + j + |c|] == c;
    assert OccursAt(a, c, i + j);
  }

  /** A pattern holding a character the text lacks cannot occur in it. */
  lemma NotContainsByChar(s: string, p: string, c: char)
    requires c in p && c !in s
    ensures !Contains(s, p)
  {
  }

  /** Appending keeps every occurrence in the left part. */
  lemma OccursInPrefix(s: string, t: string, p: string, i: nat)
    requires OccursAt(s, p, i)
    ensures OccursAt(s + t, p, i)
  {
    assert (s + t)[i..i + |p|] == s[i..i + |p|];
  }

  /** Prepending shifts every occurrence by the prepended length. */
  lemma OccursInSuffix(s: string, t: string, p: string, i: nat)
    requires OccursAt(t, p, i)
    ensures OccursAt(s + t, p, |s| + i)
  {
    assert (s + t)[|s| + i..|s| + i + |p|] == t[i..i + |p|];
  }

  // ---------------------------------------------- building by repeated `+=`

  /** The string obtained by appending `pieces` one after the other to `''`. */
  function Concat(pieces: seq<string>): string
  {
    if pieces == [] then [] else Concat(pieces[..|pieces| - 1]) + pieces[|pieces| - 1]
  }

  /** Appending one more piece appends its text. */
  lemma ConcatSnoc(pieces: seq<string>, p: string)
    ensures Concat(pieces + [p]) == Concat(pieces) + p
  {
    assert (pieces + [p])[..|pieces|] == pieces;
  }

  /** Appending the next piece of a planned sequence extends the prefix built so far. */
  lemma ConcatPrefixStep(pieces: seq<string>, k: nat)
    requires k < |pieces|
    ensures Concat(pieces[..k + 1]) == Concat(pieces[..k]) + pieces[k]
  {
    assert pieces[..k + 1] == pieces[..k] + [pieces[k]];
    ConcatSnoc(pieces[..k], pieces[k]);
  }

  /** Nine pieces appended one after the other. */
  lemma ConcatNine(a: string, b: string, c: string, d: string, e: string, f: string, g: string, h: string, i: string)
    ensures Concat([a, b, c, d, e, f, g, h, i]) == a + b + c + d + e + f + g + h + i
  {
    var ps := [a, b, c, d, e, f, g, h, i];
    assert ps[..0] == [];
    ConcatPrefixStep(ps, 0);
    ConcatPrefixStep(ps, 1);
    ConcatPrefixStep(ps, 2);
    ConcatPrefixStep(ps, 3);
    ConcatPrefixStep(ps, 4);
    ConcatPrefixStep(ps, 5);
    ConcatPrefixStep(ps, 6);
    ConcatPrefixStep(ps, 7);
    ConcatPrefixStep(ps, 8);
    assert ps[..9] == ps;
  }

  lemma ConcatSingle(p: string)
    ensures Concat([p]) == p
  {
    assert [p][..0] == [];
  }

  lemma {:induction false} ConcatAppend(a: seq<string>, b: seq<string>)
    ensures Concat(a + b) == Concat(a) + Concat(b)
    decreases |b|
  {
    if b == [] {
      assert a + b == a;
    } else {
      var init, last := b[..|b| - 1], b[|b| - 1];
      assert a + b == (a + init) + [last];
      ConcatSnoc(a + init, last);
      ConcatAppend(a, init);
      assert b == init + [last];
      ConcatSnoc(init, last);
      AppendAssociative(Concat(a), Concat(init), last);
    }
  }

  lemma AppendAssociative(x: string, y: string, z: string)
    ensures x + y + z == x + (y + z)
  {
  }

  /** Piece `k` sits in the result right after the pieces before it. */
  lemma PieceAt(pieces: seq<string>, k: nat)
    requires k < |pieces|
    ensures OccursAt(Concat(pieces), pieces[k], |Concat(pieces[..k])|)
  {
    assert pieces == pieces[..k] + [pieces[k]] + pieces[k + 1..];
    ConcatAppend(pieces[..k] + [pieces[k]], pieces[k + 1..]);
    ConcatAppend(pieces[..k], [pieces[k]]);
    assert Concat([pieces[k]]) == pieces[k] by {
      assert [pieces[k]][..0] == [];
    }
    var left := Concat(pieces[..k]) + pieces[k];
    assert Concat(pieces) == left + Concat(pieces[k + 1..]);
    assert OccursAt(left, pieces[k], |Concat(pieces[..k])|);
    OccursInPrefix(left, Concat(pieces[k + 1..]), pieces[k], |Concat(pieces[..k])|);
  }

  /** The text of the pieces opens with the first piece and closes with the last. */
  lemma ConcatFraming(pieces: seq<string>)
    requires pieces != []
    ensures StartsWith(Concat(pieces), pieces[0])
    ensures EndsWith(Concat(pieces), pieces[|pieces| - 1])
  {
    PieceAt(pieces, 0);
    assert pieces[..0] == [];
    var text, last := Concat(pieces), pieces[|pieces| - 1];
    assert text == Concat(pieces[..|pieces| - 1]) + last;
    assert text[|text| - |last|..] == last;
  }

  /** A piece appended earlier appears in the result before a piece appended later. */
  lemma {:induction false} PiecesBefore(pieces: seq<string>, j: nat, k: nat)
    requires j < k < |pieces|
    ensures Before(Concat(pieces), pieces[j], pieces[k])
  {
    PieceAt(pieces, j);
    PieceAt(pieces, k);
    assert pieces[..k] == pieces[..j + 1] + pieces[j + 1..k];
    ConcatAppend(pieces[..j + 1], pieces[j + 1..k]);
    assert pieces[..j + 1] == pieces[..j] + [pieces[j]];
    ConcatAppend(pieces[..j], [pieces[j]]);
    assert Concat([pieces[j]]) == pieces[j] by {
      assert [pieces[j]][..0] == [];
    }
    assert |Concat(pieces[..j])| + |pieces[j]| <= |Concat(pieces[..k])|;
  }

  lemma PieceIn(pieces: seq<string>, p: string)
    requires p in pieces
    ensures Contains(Concat(pieces), p)
  {
    var k :| 0 <= k < |pieces| && pieces[k] == p;
    PieceAt(pieces, k);
  }

  // ------------------------------------------------------ decimal numbers

  function DigitChar(d: nat): char
    requires d < 10
  {
    ('0' as int + d) as char
  }

  /** `${n}` for a non-negative integer. */
  function DecimalString(n: nat): (s: string)
    ensures 1 <= |s|
    ensures forall i :: 0 <= i < |s| ==> '0' <= s[i] <= '9'
  {
    if n < 10 then [DigitChar(n)] else DecimalString(n / 10) + [DigitChar(n % 10)]
  }

  /** Reads a string of decimal digits back as a number. */
  function DecimalValue(s: string): nat
    requires forall i :: 0 <= i < |s| ==> '0' <= s[i] <= '9'
  {
    if s == [] then 0
    else 10 * DecimalValue(s[..|s| - 1]) + (s[|s| - 1] as int - '0' as int)
  }

  /** Formatting a count and reading it back gives the count. */
  lemma {:induction false} DecimalRoundTrip(n: nat)
    ensures DecimalValue(DecimalString(n)) == n
  {
    var s := DecimalString(n);
    if n >= 10 {
      DecimalRoundTrip(n / 10);
      assert s[..|s| - 1] == DecimalString(n / 10);
    }
  }
}
