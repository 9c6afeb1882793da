/** `escapeXml`: replaces each of the five characters XML 1.0 reserves for markup
    (section 2.4, "Character Data and Markup") by its predefined entity (section 4.6,
    "Predefined Entities"); every other character is copied. */
module XmlEscape {
  import opened Strings

  /** The character class `[<>&'"]` of the regular expression. */
  predicate IsMarkup(c: char)
  {
    c == '<' || c == '>' || c == '&' || c == '\'' || c == '"'
  }

  /** A markup character that the output must never contain raw; `&` is absent because
      the output does contain it, as the first character of every entity. */
  predicate IsRawMarkup(c: char)
  {
    c == '<' || c == '>' || c == '\'' || c == '"'
  }

  /** The `switch` of the replacement callback, including its `default` branch. */
  function Entity(c: char): (r: string)
    ensures r == [] <==> !IsMarkup(c)
    ensures IsMarkup(c) ==> |r| >= 4 && r[0] == '&' && r[|r| - 1] == ';'
  {
    match c
    case '<' => "&lt;"
    case '>' => "&gt;"
    case '&' => "&amp;"
    case '\'' => "&apos;"
    case '"' => "&quot;"
    case _ => ""
  }

  /** What the global `replace` puts in place of one input character: the callback is
      called only on characters the class matches, and the others are kept. */
  function Piece(c: char): string
  {
    if IsMarkup(c) then Entity(c) else [c]
  }

  /** `escapeXml(unsafe)`. */
  function Escape(s: string): (r: string)
    ensures forall i :: 0 <= i < |r| ==> !IsRawMarkup(r[i])
    ensures |r| >= |s|
  {
    if s == [] then [] else Piece(s[0]) + Escape(s[1..])
  }

  /** An entity begins at index `i` of `t`. */
  predicate EntityAt(t: string, i: nat)
  {
    || OccursAt(t, "&lt;", i) || OccursAt(t, "&gt;", i) || OccursAt(t, "&amp;", i)
    || OccursAt(t, "&apos;", i) || OccursAt(t, "&quot;", i)
  }

  /** Well-formed escaped text: no raw markup, and every `&` begins an entity. */
  predicate IsEscaped(t: string)
  {
    && (forall i :: 0 <= i < |t| ==> !IsRawMarkup(t[i]))
    && (forall i :: 0 <= i < |t| && t[i] == '&' ==> EntityAt(t, i))
  }

  /** Decoding of the five predefined entities; any other character, and an `&` that
      does not begin an entity, is copied. */
  function Unescape(t: string): (r: string)
    ensures |r| <= |t|
  {
    if t == [] then []
    else if t[0] != '&' then [t[0]] + Unescape(t[1..])
    else if OccursAt(t, "&lt;", 0) then "<" + Unescape(t[4..])
    else if OccursAt(t, "&gt;", 0) then ">" + Unescape(t[4..])
    else if OccursAt(t, "&amp;", 0) then "&" + Unescape(t[5..])
    else if OccursAt(t, "&apos;", 0) then "'" + Unescape(t[6..])
    else if OccursAt(t, "&quot;", 0) then "\"" + Unescape(t[6..])
    else [t[0]] + Unescape(t[1..])
  }

  /** Number of occurrences of `c` in `s`. */
  function Count(s: string, c: char): nat
  {
    if s == [] then 0 else (if s[0] == c then 1 else 0) + Count(s[1..], c)
  }

  lemma CountAppend(a: string, b: string, c: char)
    ensures Count(a + b, c) == Count(a, c) + Count(b, c)
  {
    if a != [] {
      assert (a + b)[0] == a[0] && (a + b)[1..] == a[1..] + b;
      CountAppend(a[1..], b, c);
    } else {
      assert a + b == b;
    }
  }

  // ----- Properties -----

  /** Decoding the entities of the output gives back the input. */
  lemma {:induction false} UnescapeEscape(s: string)
    ensures Unescape(Escape(s)) == s
  {
    if s != [] {
      UnescapeEscape(s[1..]);
      UnescapePiece(s[0], Escape(s[1..]));
    }
  }

  /** The piece of a character, followed by any text, decodes to that character
      followed by the decoding of the text. */
  lemma UnescapePiece(c: char, rest: string)
    ensures Unescape(Piece(c) + rest) == [c] + Unescape(rest)
  {
    var e := Piece(c);
    var t := e + rest;
    assert t[..|e|] == e && t[|e|..] == rest;
    if !IsMarkup(c) {
      assert t[0] == c && c != '&';
    } else {
      assert t[0] == '&' && OccursAt(t, e, 0);
      if c == '<' {
        assert Unescape(t) == "<" + Unescape(t[4..]);
      } else if c == '>' {
        assert t[1] == 'g';
        assert Unescape(t) == ">" + Unescape(t[4..]);
      } else if c == '&' {
        assert t[1] == 'a' && t[2] == 'm';
        assert Unescape(t) == "&" + Unescape(t[5..]);
      } else if c == '\'' {
        assert t[1] == 'a' && t[2] == 'p';
        assert Unescape(t) == "'" + Unescape(t[6..]);
      } else {
        assert t[1] == 'q';
        assert Unescape(t) == "\"" + Unescape(t[6..]);
      }
    }
  }

  /** Each entity decodes to the character it stands for. */
  lemma EntityDecodes(c: char)
    requires IsMarkup(c)
    ensures Unescape(Entity(c)) == [c]
  {
    UnescapePiece(c, []);
    assert Entity(c) + [] == Entity(c);
  }

  /** The output of `Escape` is well-formed escaped text. */
  lemma {:induction false} EscapeIsEscaped(s: string)
    ensures IsEscaped(Escape(s))
  {
    if s != [] {
      EscapeIsEscaped(s[1..]);
      PieceEscaped(s[0]);
      EscapedAppend(Piece(s[0]), Escape(s[1..]));
    }
  }

  /** The piece of every character is well-formed escaped text. */
  lemma PieceEscaped(c: char)
    ensures IsEscaped(Piece(c))
  {
    var p := Piece(c);
    if IsMarkup(c) {
      assert OccursAt(p, p, 0);
    }
  }

  /** Well-formed escaped texts concatenate to well-formed escaped text. */
  lemma EscapedAppend(a: string, b: string)
    requires IsEscaped(a) && IsEscaped(b)
    ensures IsEscaped(a + b)
  {
    var t := a + b;
    forall i | 0 <= i < |t| && t[i] == '&'
      ensures EntityAt(t, i)
    {
      if i < |a| {
        assert a[i] == '&';
        EntityExtend(a, b, i);
      } else {
        assert b[i - |a|] == '&';
        EntityShift(a, b, i - |a|);
      }
    }
  }

  lemma EntityExtend(a: string, b: string, i: nat)
    requires EntityAt(a, i)
    ensures EntityAt(a + b, i)
  {
    if OccursAt(a, "&lt;", i) { OccursExtend(a, b, "&lt;", i); }
    else if OccursAt(a, "&gt;", i) { OccursExtend(a, b, "&gt;", i); }
    else if OccursAt(a, "&amp;", i) { OccursExtend(a, b, "&amp;", i); }
    else if OccursAt(a, "&apos;", i) { OccursExtend(a, b, "&apos;", i); }
    else { OccursExtend(a, b, "&quot;", i); }
  }

  lemma EntityShift(a: string, b: string, j: nat)
    requires EntityAt(b, j)
    ensures EntityAt(a + b, |a| + j)
  {
    if OccursAt(b, "&lt;", j) { OccursShift(a, b, "&lt;", j); }
    else if OccursAt(b, "&gt;", j) { OccursShift(a, b, "&gt;", j); }
    else if OccursAt(b, "&amp;", j) { OccursShift(a, b, "&amp;", j); }
    else if OccursAt(b, "&apos;", j) { OccursShift(a, b, "&apos;", j); }
    else { OccursShift(a, b, "&quot;", j); }
  }

  /** A suffix of well-formed escaped text that starts after a complete character or
      entity is well-formed escaped text too. */
  lemma EscapedSuffix(t: string, k: nat)
    requires IsEscaped(t) && k <= |t|
    ensures IsEscaped(t[k..])
  {
    var rest := t[k..];
    forall i | 0 <= i < |rest| && rest[i] == '&'
      ensures EntityAt(rest, i)
    {
      assert t[k + i] == '&' && EntityAt(t, k + i);
      forall e: string | OccursAt(t, e, k + i) ensures OccursAt(rest, e, i) {
        assert rest[i..i + |e|] == t[k + i..k + i + |e|];
      }
    }
  }

  /** Decoding the first character or entity of well-formed escaped text: it is the
      piece of the decoded character, and decoding continues after it. */
  lemma UnescapeStep(t: string) returns (k: nat)
    requires IsEscaped(t) && t != []
    ensures 1 <= k <= |t|
    ensures Unescape(t) == [Unescape(t)[0]] + Unescape(t[k..])
    ensures Piece(Unescape(t)[0]) == t[..k]
  {
    if t[0] != '&' {
      k := 1;
      assert !IsRawMarkup(t[0]);
      assert Unescape(t) == [t[0]] + Unescape(t[1..]);
    } else {
      assert EntityAt(t, 0);
      if OccursAt(t, "&lt;", 0) {
        k := 4;
        assert Unescape(t) == "<" + Unescape(t[4..]);
      } else if OccursAt(t, "&gt;", 0) {
        k := 4;
        assert Unescape(t) == ">" + Unescape(t[4..]);
      } else if OccursAt(t, "&amp;", 0) {
        k := 5;
        assert Unescape(t) == "&" + Unescape(t[5..]);
      } else if OccursAt(t, "&apos;", 0) {
        k := 6;
        assert Unescape(t) == "'" + Unescape(t[6..]);
      } else {
        k := 6;
        assert Unescape(t) == "\"" + Unescape(t[6..]);
      }
    }
  }

  /** Every well-formed escaped text is the escape of exactly its decoding, so `Escape`
      is a bijection between all strings and well-formed escaped text. */
  lemma {:induction false} EscapeUnescape(t: string)
    requires IsEscaped(t)
    ensures Escape(Unescape(t)) == t
    decreases |t|
  {
    if t != [] {
      var k := UnescapeStep(t);
      EscapedSuffix(t, k);
      EscapeUnescape(t[k..]);
      var u := Unescape(t);
      EscapeRejoin(u[0], Unescape(t[k..]), t, k);
    }
  }

  /** Escaping a text that starts with `d` puts the piece of `d` first. */
  lemma EscapeCons(d: char, x: string)
    ensures Escape([d] + x) == Piece(d) + Escape(x)
  {
    assert ([d] + x)[0] == d && ([d] + x)[1..] == x;
  }

  /** A text cut at `k` is the escape of `[d] + x` when its two parts are the escapes of
      `d` and of `x`. */
  lemma EscapeRejoin(d: char, x: string, t: string, k: nat)
    requires k <= |t| && Piece(d) == t[..k] && Escape(x) == t[k..]
    ensures Escape([d] + x) == t
  {
    EscapeCons(d, x);
    assert t == t[..k] + t[k..];
  }

  /** Escaping distributes over concatenation. */
  lemma {:induction false} EscapeAppend(a: string, b: string)
    ensures Escape(a + b) == Escape(a) + Escape(b)
  {
    if a != [] {
      assert (a + b)[0] == a[0] && (a + b)[1..] == a[1..] + b;
      EscapeAppend(a[1..], b);
      calc {
        Escape(a + b);
        Piece(a[0]) + Escape(a[1..] + b);
        Piece(a[0]) + (Escape(a[1..]) + Escape(b));
        (Piece(a[0]) + Escape(a[1..])) + Escape(b);
      }
    } else {
      assert a + b == b;
    }
  }

  /** Each `<` and `>` costs three extra characters, `&` four, `'` and `"` five. */
  lemma {:induction false} EscapeLength(s: string)
    ensures |Escape(s)| == |s| + 3 * Count(s, '<') + 3 * Count(s, '>') + 4 * Count(s, '&')
                               + 5 * Count(s, '\'') + 5 * Count(s, '"')
  {
    if s != [] {
      EscapeLength(s[1..]);
    }
  }

  /** A string is returned unchanged exactly when it holds none of the five characters. */
  lemma {:induction false} EscapeIdentity(s: string)
    ensures Escape(s) == s <==> forall i :: 0 <= i < |s| ==> !IsMarkup(s[i])
  {
    if s != [] {
      EscapeIdentity(s[1..]);
      if IsMarkup(s[0]) {
        assert |Escape(s)| > |s| by {
          assert |Escape(s)| == |Entity(s[0])| + |Escape(s[1..])|;
        }
      } else {
        assert Escape(s) == [s[0]] + Escape(s[1..]);
        if Escape(s) == s {
          assert Escape(s[1..]) == s[1..];
        }
      }
    }
  }

  /** A character of one of the five entities. */
  predicate IsEntityChar(c: char)
  {
    || c == '&' || c == ';' || c == 'a' || c == 'g' || c == 'l' || c == 'm'
    || c == 'o' || c == 'p' || c == 'q' || c == 's' || c == 't' || c == 'u'
  }

  /** Text made of characters that are neither markup nor part of an entity; every
      placeholder is such text. */
  predicate PlainText(p: string)
  {
    forall k :: 0 <= k < |p| ==> !IsMarkup(p[k]) && !IsEntityChar(p[k])
  }

  /** What the piece of a character looks like: the character itself, or an entity that
      starts with `&`, ends with `;` and has only entity characters. */
  lemma PieceShape(c: char)
    ensures !IsMarkup(c) ==> Piece(c) == [c]
    ensures IsMarkup(c) ==> var e := Piece(c);
      && |e| >= 4 && e[0] == '&' && e[|e| - 1] == ';'
      && forall k :: 0 <= k < |e| ==> IsEntityChar(e[k])
  {
  }

  /** Escaped text that starts with plain text comes from input that starts with it. */
  lemma {:induction false} EscapeStartsWith(s: string, q: string)
    requires PlainText(q) && |q| <= |Escape(s)| && Escape(s)[..|q|] == q
    ensures |q| <= |s| && s[..|q|] == q
    decreases |s|
  {
    if q != [] {
      var c, e := s[0], Escape(s[1..]);
      var a := Piece(c);
      assert Escape(s) == a + e;
      PieceShape(c);
      assert q[0] == a[0];
      assert !IsMarkup(c);
      assert e[..|q| - 1] == q[1..];
      EscapeStartsWith(s[1..], q[1..]);
      assert s[..|q|] == [c] + s[1..][..|q| - 1];
    }
  }

  /** Escaping never forms plain text that the input does not contain. */
  lemma {:induction false} EscapeContainsPlain(s: string, p: string)
    requires PlainText(p) && p != [] && Contains(Escape(s), p)
    ensures Contains(s, p)
    decreases |s|
  {
    var i: nat :| i <= |Escape(s)| && OccursAt(Escape(s), p, i);
    var c, e := s[0], Escape(s[1..]);
    var a := Piece(c);
    assert Escape(s) == a + e;
    if i >= |a| {
      ContainsInTail(s, p, a, e, i);
    } else {
      ContainsAtHead(s, p, a, e, i);
    }
  }

  /** The case of `EscapeContainsPlain` for an occurrence that starts in the first piece:
      the piece is a copied character and the occurrence starts the input. */
  lemma ContainsAtHead(s: string, p: string, a: string, e: string, i: nat)
    requires s != [] && PlainText(p) && p != []
    requires a == Piece(s[0]) && Escape(s) == a + e && i < |a| && OccursAt(a + e, p, i)
    ensures Contains(s, p)
  {
    PieceShape(s[0]);
    assert p[0] == a[i];
    assert !IsMarkup(s[0]) && i == 0;
    EscapeStartsWith(s, p);
    assert OccursAt(s, p, 0);
  }

  /** The inductive step of `EscapeContainsPlain` for an occurrence after the first piece. */
  lemma {:induction false} ContainsInTail(s: string, p: string, a: string, e: string, i: nat)
    requires s != [] && PlainText(p) && p != []
    requires a == Piece(s[0]) && e == Escape(s[1..]) && |a| <= i && OccursAt(a + e, p, i)
    ensures Contains(s, p)
    decreases |s|, 0
  {
    OccursInSuffix(a + e, |a|, p, i);
    assert (a + e)[|a|..] == e;
    EscapeContainsPlain(s[1..], p);
    var j: nat :| j <= |s[1..]| && OccursAt(s[1..], p, j);
    OccursShift([s[0]], s[1..], p, j);
    assert [s[0]] + s[1..] == s;
  }

  /** The first character of the output is the first of the input or the `&` of an
      entity. */
  lemma EscapeFirst(s: string)
    requires s != []
    ensures Escape(s)[0] == s[0] || Escape(s)[0] == '&'
  {
    assert Escape(s) == Piece(s[0]) + Escape(s[1..]);
    PieceShape(s[0]);
  }

  /** The last character of the output is the last of the input or the `;` of an
      entity. */
  lemma {:induction false} EscapeLast(s: string)
    requires s != []
    ensures var r := Escape(s); r[|r| - 1] == s[|s| - 1] || r[|r| - 1] == ';'
  {
    var a, e := Piece(s[0]), Escape(s[1..]);
    assert Escape(s) == a + e;
    PieceShape(s[0]);
    if |s| > 1 {
      EscapeLast(s[1..]);
      assert (a + e)[|a + e| - 1] == e[|e| - 1];
    } else {
      assert e == [];
    }
  }
}
