/**
 UTF-8 text rune by rune. The text functions of this model look at bytes; here is what
 they do to the characters, as Go's `unicode.IsSpace` and `unicode.IsControl` class them.
 */
module Runes {
  import opened Text
  import opened WhiteSpace

  type Rune = c: int | 0 <= c < 0x110000

  function Utf8(c: Rune): (r: string)
    ensures 1 <= |r| <= 4
  {
    if c < 0x80 then [c as char]
    else if c < 0x800 then [(0xc0 + c / 0x40) as char, (0x80 + c % 0x40) as char]
    else if c < 0x1_0000 then [(0xe0 + c / 0x1000) as char, (0x80 + c / 0x40 % 0x40) as char, (0x80 + c % 0x40) as char]
    else [(0xf0 + c / 0x4_0000) as char, (0x80 + c / 0x1000 % 0x40) as char, (0x80 + c / 0x40 % 0x40) as char, (0x80 + c % 0x40) as char]
  }

  function Encode(text: seq<Rune>): (r: string) {
    if text == [] then "" else Utf8(text[0]) + Encode(text[1..])
  }

  /** unicode.IsSpace. */
  predicate White(c: Rune) {
    || 9 <= c <= 13 || c == 32 || c == 0x85 || c == 0xa0 || c == 0x1680 || 0x2000 <= c <= 0x200a
    || c == 0x2028 || c == 0x2029 || c == 0x202f || c == 0x205f || c == 0x3000
  }

  /** unicode.IsControl. */
  predicate Control(c: Rune) { c < 32 || 0x7f <= c < 0xa0 }

  predicate AllWhite(text: seq<Rune>) { forall i :: 0 <= i < |text| ==> White(text[i]) }

  /** The bytes of a rune that takes several are all outside ASCII, and those after the
      first are below 0xc0. */
  lemma Following(c: Rune, i: nat)
    requires i < |Utf8(c)|
    ensures |Utf8(c)| > 1 ==> Utf8(c)[i] >= '\U{80}'
    ensures i > 0 ==> '\U{80}' <= Utf8(c)[i] < '\U{c0}'
    ensures |Utf8(c)| > 1 && i == 0 ==> Utf8(c)[i] >= '\U{c2}'
  {
  }

  lemma LeadingRune(c: Rune, rest: string)
    ensures Leading(Utf8(c) + rest) == if White(c) then |Utf8(c)| else 0
  {
  }

  lemma TrailingRune(front: string, c: Rune)
    ensures Trailing(front + Utf8(c)) == if White(c) then |Utf8(c)| else 0
  {
  }

  lemma {:induction false} EncodeAppend(a: seq<Rune>, b: seq<Rune>)
    ensures Encode(a + b) == Encode(a) + Encode(b)
  {
    if a == [] {
      assert a + b == b;
    } else {
      assert (a + b)[1..] == a[1..] + b;
      EncodeAppend(a[1..], b);
    }
  }

  lemma EncodeOne(c: Rune)
    ensures Encode([c]) == Utf8(c)
  {
    assert [c][1..] == [];
  }

  lemma {:induction false} StartIsTrimmed(lead: seq<Rune>, rest: string)
    requires AllWhite(lead)
    ensures TrimStart(Encode(lead) + rest) == TrimStart(rest)
  {
    if lead == [] {
      assert "" + rest == rest;
    } else {
      var first, more := Utf8(lead[0]), Encode(lead[1..]) + rest;
      assert Encode(lead) + rest == first + more;
      LeadingRune(lead[0], more);
      assert (first + more)[|first|..] == more;
      StartIsTrimmed(lead[1..], rest);
    }
  }

  lemma {:induction false} EndIsTrimmed(front: string, trail: seq<Rune>)
    requires AllWhite(trail)
    ensures TrimEnd(front + Encode(trail)) == TrimEnd(front)
  {
    if trail == [] {
      assert front + "" == front;
    } else {
      var init, last := trail[..|trail| - 1], trail[|trail| - 1];
      assert trail == init + [last];
      EncodeAppend(init, [last]);
      EncodeOne(last);
      var before := front + Encode(init);
      assert front + Encode(trail) == before + Utf8(last);
      TrailingRune(before, last);
      assert (before + Utf8(last))[..|before|] == before;
      EndIsTrimmed(front, init);
    }
  }

  lemma SolidRune(c: Rune, more: string)
    requires !White(c)
    ensures TrimStart(Utf8(c) + more) == Utf8(c) + more
  {
    LeadingRune(c, more);
  }

  lemma SolidIsKept(text: seq<Rune>, trail: seq<Rune>)
    requires text != [] && !White(text[0]) && !White(text[|text| - 1]) && AllWhite(trail)
    ensures TrimSpace(Encode(text) + Encode(trail)) == Encode(text)
  {
    var first, more := Utf8(text[0]), Encode(text[1..]);
    Assoc(first, more, Encode(trail));
    SolidRune(text[0], more + Encode(trail));
    EndIsTrimmed(Encode(text), trail);
    NoSpaceAtTheEnd(text);
  }

  /** Trimming takes exactly the white space characters around the text, whichever they are. */
  lemma TrimTakesTheSpace(lead: seq<Rune>, text: seq<Rune>, trail: seq<Rune>)
    requires AllWhite(lead) && AllWhite(trail)
    requires text != [] ==> !White(text[0]) && !White(text[|text| - 1])
    ensures TrimSpace(Encode(lead) + (Encode(text) + Encode(trail))) == Encode(text)
    ensures Encode(lead + (text + trail)) == Encode(lead) + (Encode(text) + Encode(trail))
  {
    EncodeAppend(lead, text + trail);
    EncodeAppend(text, trail);
    StartIsTrimmed(lead, Encode(text) + Encode(trail));
    if text == [] {
      assert "" + Encode(trail) == Encode(trail) + "";
      StartIsTrimmed(trail, "");
    } else {
      SolidIsKept(text, trail);
    }
  }

  lemma NoSpaceAtTheEnd(text: seq<Rune>)
    requires text != [] && !White(text[|text| - 1])
    ensures TrimEnd(Encode(text)) == Encode(text)
  {
    var init, last := text[..|text| - 1], text[|text| - 1];
    assert text == init + [last];
    EncodeAppend(init, [last]);
    EncodeOne(last);
    TrailingRune(Encode(init), last);
  }
}
