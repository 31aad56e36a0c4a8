/** The standard base64 encoding (section 4 of RFC 4648) and the decoder that requests go
    through: it ignores line breaks and the unused low bits before padding. */
module Base64 {
  import opened Common

  type Sextet = x: nat | x < 64

  const PADDING := '='

  function Symbol(v: Sextet): char {
    if v < 26 then 'A' + v as char
    else if v < 52 then 'a' + (v - 26) as char
    else if v < 62 then '0' + (v - 52) as char
    else if v == 62 then '+'
    else '/'
  }

  predicate IsSymbol(c: char) {
    'A' <= c <= 'Z' || 'a' <= c <= 'z' || '0' <= c <= '9' || c == '+' || c == '/'
  }

  function Value(c: char): Sextet
    requires IsSymbol(c)
  {
    if 'A' <= c <= 'Z' then (c - 'A') as int
    else if 'a' <= c <= 'z' then (c - 'a') as int + 26
    else if '0' <= c <= '9' then (c - '0') as int + 52
    else if c == '+' then 62
    else 63
  }

  lemma SymbolValue(v: Sextet)
    ensures IsSymbol(Symbol(v)) && Value(Symbol(v)) == v && Symbol(v) != PADDING && !IsBreak(Symbol(v))
  {
  }

  /** The four symbols that three bytes are cut into. */
  function Sextet0(a: Byte): Sextet {
    a / 4
  }

  function Sextet1(a: Byte, b: Byte): Sextet {
    a % 4 * 16 + b / 16
  }

  function Sextet2(b: Byte, c: Byte): Sextet {
    b % 16 * 4 + c / 64
  }

  function Sextet3(c: Byte): Sextet {
    c % 64
  }

  /** The three bytes that four symbols are put together to. */
  function Byte0(v0: Sextet, v1: Sextet): Byte {
    v0 * 4 + v1 / 16
  }

  function Byte1(v1: Sextet, v2: Sextet): Byte {
    v1 % 16 * 16 + v2 / 4
  }

  function Byte2(v2: Sextet, v3: Sextet): Byte {
    v2 % 4 * 64 + v3
  }

  function Encode(bytes: seq<Byte>): string {
    if bytes == [] then ""
    else if |bytes| == 1 then [Symbol(Sextet0(bytes[0])), Symbol(Sextet1(bytes[0], 0)), PADDING, PADDING]
    else if |bytes| == 2 then
      [Symbol(Sextet0(bytes[0])), Symbol(Sextet1(bytes[0], bytes[1])), Symbol(Sextet2(bytes[1], 0)), PADDING]
    else
      [Symbol(Sextet0(bytes[0])), Symbol(Sextet1(bytes[0], bytes[1])), Symbol(Sextet2(bytes[1], bytes[2])),
       Symbol(Sextet3(bytes[2]))] + Encode(bytes[3..])
  }

  predicate IsBreak(c: char) {
    c == '\r' || c == '\n'
  }

  function StripBreaks(text: string): string {
    if text == "" then "" else (if IsBreak(text[0]) then "" else [text[0]]) + StripBreaks(text[1..])
  }

  /** Decodes text without line breaks. Padding may only end the text. */
  function DecodeGroups(text: string): Result<seq<Byte>> {
    if text == "" then Ok([])
    else if |text| < 4 || !IsSymbol(text[0]) || !IsSymbol(text[1]) then Err
    else
      var first := Byte0(Value(text[0]), Value(text[1]));
      if text[2] == PADDING then
        if text[3] == PADDING && |text| == 4 then Ok([first]) else Err
      else if !IsSymbol(text[2]) then Err
      else
        var second := Byte1(Value(text[1]), Value(text[2]));
        if text[3] == PADDING then
          if |text| == 4 then Ok([first, second]) else Err
        else if !IsSymbol(text[3]) then Err
        else
          var rest := DecodeGroups(text[4..]);
          if rest.Err? then Err else Ok([first, second, Byte2(Value(text[2]), Value(text[3]))] + rest.value)
  }

  function Decode(text: string): Result<seq<Byte>> {
    DecodeGroups(StripBreaks(text))
  }

  lemma {:induction false} EncodedHasNoBreaks(bytes: seq<Byte>)
    ensures forall c :: c in Encode(bytes) ==> !IsBreak(c)
  {
    forall v: Sextet ensures !IsBreak(Symbol(v)) { SymbolValue(v); }
    if |bytes| > 2 { EncodedHasNoBreaks(bytes[3..]); }
  }

  lemma {:induction false} NothingToStrip(text: string)
    requires forall c :: c in text ==> !IsBreak(c)
    ensures StripBreaks(text) == text
  {
    if text != "" { NothingToStrip(text[1..]); }
  }

  /** Cutting bytes into symbols loses nothing. */
  lemma CutsBytes(a: Byte, b: Byte, c: Byte)
    ensures Byte0(Sextet0(a), Sextet1(a, b)) == a
    ensures Byte1(Sextet1(a, b), Sextet2(b, c)) == b
    ensures Byte2(Sextet2(b, c), Sextet3(c)) == c
  {
  }

  /** And putting symbols together loses only bits that no byte uses. */
  lemma JoinsSextets(v0: Sextet, v1: Sextet, v2: Sextet, v3: Sextet)
    ensures Sextet0(Byte0(v0, v1)) == v0
    ensures Sextet1(Byte0(v0, v1), Byte1(v1, v2)) == v1 && Sextet1(Byte0(v0, v1), 0) == v1 / 16 * 16
    ensures Sextet2(Byte1(v1, v2), Byte2(v2, v3)) == v2 && Sextet2(Byte1(v1, v2), 0) == v2 / 4 * 4
    ensures Sextet3(Byte2(v2, v3)) == v3
  {
  }

  lemma DecodesThree(a: Byte, b: Byte, c: Byte, rest: string)
    requires DecodeGroups(rest).Ok?
    ensures var group := [Symbol(Sextet0(a)), Symbol(Sextet1(a, b)), Symbol(Sextet2(b, c)), Symbol(Sextet3(c))];
            DecodeGroups(group + rest) == Ok([a, b, c] + DecodeGroups(rest).value)
  {
    hide Symbol, Value, Sextet0, Sextet1, Sextet2, Sextet3, Byte0, Byte1, Byte2;
    var group := [Symbol(Sextet0(a)), Symbol(Sextet1(a, b)), Symbol(Sextet2(b, c)), Symbol(Sextet3(c))];
    assert (group + rest)[4..] == rest;
    CutsBytes(a, b, c);
    SymbolValue(Sextet0(a));
    SymbolValue(Sextet1(a, b));
    SymbolValue(Sextet2(b, c));
    SymbolValue(Sextet3(c));
  }

  lemma DecodesShort(bytes: seq<Byte>)
    requires |bytes| < 3
    ensures DecodeGroups(Encode(bytes)) == Ok(bytes)
  {
    hide Symbol, Value, Sextet0, Sextet1, Sextet2, Sextet3, Byte0, Byte1, Byte2;
    if |bytes| > 0 {
      var second := if |bytes| == 2 then bytes[1] else 0;
      CutsBytes(bytes[0], second, 0);
      SymbolValue(Sextet0(bytes[0]));
      SymbolValue(Sextet1(bytes[0], second));
      SymbolValue(Sextet2(second, 0));
      assert bytes == if |bytes| == 2 then [bytes[0], bytes[1]] else [bytes[0]];
    }
  }

  lemma {:induction false} DecodesGroups(bytes: seq<Byte>)
    ensures DecodeGroups(Encode(bytes)) == Ok(bytes)
  {
    if |bytes| > 2 {
      DecodesGroups(bytes[3..]);
      var rest := Encode(bytes[3..]);
      DecodesThree(bytes[0], bytes[1], bytes[2], rest);
      assert [bytes[0], bytes[1], bytes[2]] + bytes[3..] == bytes;
    } else {
      DecodesShort(bytes);
    }
  }

  /** Round trip for every byte string. */
  lemma DecodeEncode(bytes: seq<Byte>)
    ensures Decode(Encode(bytes)) == Ok(bytes)
  {
    EncodedHasNoBreaks(bytes);
    NothingToStrip(Encode(bytes));
    DecodesGroups(bytes);
  }

  /** The shape of base64 text: whole groups of four, with padding in the last two places of
      the last group only. */
  predicate WellFormed(text: string) {
    && |text| % 4 == 0
    && exists padding :: 0 <= padding <= 2 && padding <= |text| && Padded(text, padding)
  }

  predicate Padded(text: string, padding: nat)
    requires padding <= |text|
  {
    && (forall i :: 0 <= i < |text| - padding ==> IsSymbol(text[i]))
    && (forall i :: |text| - padding <= i < |text| ==> text[i] == PADDING)
  }

  lemma PaddedRest(text: string, padding: nat)
    requires |text| >= 4 && padding <= 2 && (|text| == 4 ==> padding == 0)
    requires padding <= |text| - 4
    ensures Padded(text, padding) <==> Padded(text[4..], padding) && forall i :: 0 <= i < 4 ==> IsSymbol(text[i])
  {
    var rest := text[4..];
    assert forall i :: 4 <= i < |text| ==> text[i] == rest[i - 4];
  }

  /** The decoder accepts exactly the well-formed texts. */
  lemma {:induction false} DecodesExactly(text: string)
    ensures DecodeGroups(text).Ok? <==> WellFormed(text)
  {
    hide Value, Byte0, Byte1, Byte2;
    if text == "" {
      assert Padded(text, 0);
    } else if |text| == 4 {
      FourDecodeExactly(text);
    } else if |text| > 4 {
      DecodesExactly(text[4..]);
      if IsSymbol(text[0]) && IsSymbol(text[1]) && IsSymbol(text[2]) && IsSymbol(text[3]) {
        forall padding | 0 <= padding <= 2 && padding <= |text| - 4
          ensures Padded(text, padding) <==> Padded(text[4..], padding)
        {
          PaddedRest(text, padding);
        }
      }
    }
  }

  lemma FourDecodeExactly(text: string)
    requires |text| == 4
    ensures DecodeGroups(text).Ok? <==> WellFormed(text)
  {
    hide Value, Byte0, Byte1, Byte2;
    assert DecodeGroups(text[4..]) == Ok([]);
    assert Padded(text, 0) || Padded(text, 1) || Padded(text, 2) <==> WellFormed(text);
  }

  // ----- line breaks -----

  lemma {:induction false} StripsParts(a: string, b: string)
    ensures StripBreaks(a + b) == StripBreaks(a) + StripBreaks(b)
  {
    if a == "" {
      assert a + b == b;
    } else {
      assert (a + b)[1..] == a[1..] + b;
      StripsParts(a[1..], b);
    }
  }

  /** Line breaks do not matter, wherever they stand. */
  lemma BreaksDoNotMatter(a: string, b: string)
    ensures Decode(a + "\n" + b) == Decode(a + b) && Decode(a + "\r" + b) == Decode(a + b)
  {
    StripsParts(a, b);
    StripsParts(a + "\n", b);
    StripsParts(a + "\r", b);
    StripsParts(a, "\n");
    StripsParts(a, "\r");
    assert StripBreaks("\n") == "" && StripBreaks("\r") == "";
    assert StripBreaks(a) + "" == StripBreaks(a);
  }

  /** `text` is `clean` with line breaks put in between. */
  predicate Broken(text: string, clean: string) {
    if text == "" then clean == ""
    else if text[0] == '\r' || text[0] == '\n' then Broken(text[1..], clean)
    else clean != "" && clean[0] == text[0] && Broken(text[1..], clean[1..])
  }

  lemma {:induction false} StripsExactly(text: string, clean: string)
    ensures Broken(text, clean) <==> clean == StripBreaks(text)
  {
    if text != "" {
      if text[0] == '\r' || text[0] == '\n' {
        StripsExactly(text[1..], clean);
      } else if clean != "" {
        StripsExactly(text[1..], clean[1..]);
        assert clean == [clean[0]] + clean[1..];
      }
    }
  }

  /** The decoder accepts exactly the well-formed texts, with any line breaks put in between. */
  lemma AcceptsExactly(text: string)
    ensures Decode(text).Ok? <==> exists clean :: Broken(text, clean) && WellFormed(clean)
  {
    StripsExactly(text, StripBreaks(text));
    DecodesExactly(StripBreaks(text));
    forall clean | Broken(text, clean) ensures clean == StripBreaks(text) { StripsExactly(text, clean); }
  }

  // ----- what is decoded -----

  /** The symbols are those of the standard table: three runs of consecutive characters, from `A`
      to `Z`, from `a` to `z` and from `0` to `9`, and then `+` and `/`. */
  lemma SymbolsExactly(v: Sextet)
    ensures Symbol(0) == 'A' && Symbol(25) == 'Z' && Symbol(26) == 'a' && Symbol(51) == 'z'
    ensures Symbol(52) == '0' && Symbol(61) == '9' && Symbol(62) == '+' && Symbol(63) == '/'
    ensures v < 61 && v != 25 && v != 51 ==> Symbol(v + 1) as int == Symbol(v) as int + 1
  {
  }

  /** Nothing else is a symbol, and each has one value. */
  lemma ValuesExactly(c: char)
    ensures IsSymbol(c) <==> exists v: Sextet :: Symbol(v) == c
    ensures forall v: Sextet :: Symbol(v) == c ==> Value(c) == v
  {
    if IsSymbol(c) { assert Symbol(Value(c)) == c; }
    forall v: Sextet ensures IsSymbol(Symbol(v)) && Value(Symbol(v)) == v { SymbolValue(v); }
  }

  /** Encoding what was decoded gives the text back, up to the bits of its last symbol that no
      byte uses: with them cleared, every accepted text is the canonical one. */
  lemma {:induction false} EncodeDecoded(text: string)
    requires DecodeGroups(text).Ok?
    ensures Encode(DecodeGroups(text).value) == Cleared(text)
  {
    if |text| > 4 {
      EncodeDecoded(text[4..]);
      LongGroup(text);
    } else if text != "" {
      LastGroup(text);
    }
  }

  /** The text with the unused bits of its last symbol cleared. */
  function Cleared(text: string): string
    requires DecodeGroups(text).Ok?
  {
    if |text| > 4 then text[..4] + Cleared(text[4..])
    else if text == "" || text[3] != '=' then text
    else if text[2] != '=' then [text[0], text[1], Symbol(Value(text[2]) / 4 * 4), '=']
    else [text[0], Symbol(Value(text[1]) / 16 * 16), '=', '=']
  }

  lemma ValueSymbol(c: char)
    requires IsSymbol(c)
    ensures Symbol(Value(c)) == c
  {
  }

  lemma LongGroup(text: string)
    requires |text| > 4 && DecodeGroups(text).Ok?
    ensures DecodeGroups(text[4..]).Ok?
    ensures Encode(DecodeGroups(text).value) == text[..4] + Encode(DecodeGroups(text[4..]).value)
  {
    hide Symbol, Value, Sextet0, Sextet1, Sextet2, Sextet3, Byte0, Byte1, Byte2;
    JoinsSextets(Value(text[0]), Value(text[1]), Value(text[2]), Value(text[3]));
    forall i | 0 <= i < 4 ensures Symbol(Value(text[i])) == text[i] { ValueSymbol(text[i]); }
    assert DecodeGroups(text).value[3..] == DecodeGroups(text[4..]).value;
    assert text[..4] == [text[0], text[1], text[2], text[3]];
  }

  lemma LastGroup(text: string)
    requires |text| == 4 && DecodeGroups(text).Ok?
    ensures Encode(DecodeGroups(text).value) == Cleared(text)
  {
    hide Symbol, Value, Sextet0, Sextet1, Sextet2, Sextet3, Byte0, Byte1, Byte2;
    var v2 := if IsSymbol(text[2]) then Value(text[2]) else 0;
    var v3 := if IsSymbol(text[3]) then Value(text[3]) else 0;
    JoinsSextets(Value(text[0]), Value(text[1]), v2, v3);
    forall i | 0 <= i < 4 && IsSymbol(text[i]) ensures Symbol(Value(text[i])) == text[i] { ValueSymbol(text[i]); }
    assert DecodeGroups(text[4..]) == Ok([]);
    assert text[3] != '=' ==> text == [text[0], text[1], text[2], text[3]];
  }
}
