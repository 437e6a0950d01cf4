/** The text form of a chromosome (basic_chromosome::enstream / destream):
    every gene written as "0x" followed by its lower-case, unpadded hex
    digits, with no separator between genes. Decoding cuts the text before
    each "0x" found from the third character on and reads every piece with
    strtoul(piece, NULL, 16). */
module HexCodec {
  import opened Genome

  /** A character strtoul accepts as a base-16 digit. */
  predicate IsHexDigit(c: char) {
    '0' <= c <= '9' || 'a' <= c <= 'f' || 'A' <= c <= 'F'
  }

  /** A digit as printf's "%x" writes it. */
  predicate IsLowerHexDigit(c: char) {
    '0' <= c <= '9' || 'a' <= c <= 'f'
  }

  function DigitValue(c: char): (d: nat)
    requires IsHexDigit(c)
    ensures d < 16
  {
    if '0' <= c <= '9' then c as int - '0' as int
    else if 'a' <= c <= 'f' then c as int - 'a' as int + 10
    else c as int - 'A' as int + 10
  }

  function LowerHexDigit(d: nat): (c: char)
    requires d < 16
    ensures IsLowerHexDigit(c) && IsHexDigit(c) && DigitValue(c) == d
    ensures c == '0' <==> d == 0
  {
    if d < 10 then ('0' as int + d) as char else ('a' as int + d - 10) as char
  }

  /** The value of a run of hex digits, read most significant first. */
  function HexValue(s: string): nat
    requires forall i :: 0 <= i < |s| ==> IsHexDigit(s[i])
  {
    if s == [] then 0 else HexValue(s[..|s| - 1]) * 16 + DigitValue(s[|s| - 1])
  }

  /** printf("%x", v): lower-case hex digits with no padding. Reading the
      digits back gives v, and only zero is written with a leading '0'. */
  function HexDigits(v: nat): (s: string)
    ensures 0 < |s|
    ensures forall i :: 0 <= i < |s| ==> IsLowerHexDigit(s[i]) && IsHexDigit(s[i])
    ensures HexValue(s) == v
    ensures s[0] == '0' <==> v == 0
    ensures v == 0 ==> s == "0"
    decreases v
  {
    if v < 16 then
      [LowerHexDigit(v)]
    else
      var s := HexDigits(v / 16) + [LowerHexDigit(v % 16)];
      assert s[..|s| - 1] == HexDigits(v / 16);
      s
  }

  /** The text one gene contributes. */
  function Token(g: Gene): string {
    "0x" + HexDigits(g)
  }

  /** enstream(): the tokens of all genes, in gene order. */
  function Enstream(genes: seq<Gene>): string {
    if genes == [] then "" else Enstream(genes[..|genes| - 1]) + Token(genes[|genes| - 1])
  }

  /** True when "0x" starts at position p of s. */
  predicate PrefixAt(s: string, p: nat) {
    p + 2 <= |s| && s[p] == '0' && s[p + 1] == 'x'
  }

  /** std::string::find("0x", from): the first position at or after `from`
      where "0x" starts, or npos. */
  function Find0x(s: string, from: nat): (r: Option<nat>)
    ensures r.Some? ==> from <= r.value && PrefixAt(s, r.value)
    ensures r.Some? ==> forall p :: from <= p < r.value ==> !PrefixAt(s, p)
    ensures r.None? ==> forall p :: from <= p ==> !PrefixAt(s, p)
    decreases |s| - from
  {
    if from + 2 > |s| then None
    else if s[from] == '0' && s[from + 1] == 'x' then Some(from)
    else Find0x(s, from + 1)
  }

  /** The largest unsigned long (64 bits). */
  const UlongMax: nat := 0xFFFF_FFFF_FFFF_FFFF

  /** isspace() in the C locale. */
  predicate IsSpace(c: char) {
    c == ' ' || 9 <= c as int <= 13
  }

  function SkipSpace(s: string): (r: string)
    ensures r == [] || !IsSpace(r[0])
  {
    if s != [] && IsSpace(s[0]) then SkipSpace(s[1..]) else s
  }

  /** The longest prefix of s made of hex digits. */
  function HexRun(s: string): (r: string)
    ensures forall i :: 0 <= i < |r| ==> IsHexDigit(r[i])
  {
    if s != [] && IsHexDigit(s[0]) then [s[0]] + HexRun(s[1..]) else []
  }

  /** strtoul(s, NULL, 16) for a 64-bit unsigned long: leading white space,
      an optional sign, an optional "0x"/"0X", then the longest run of hex
      digits; an overflowing value saturates to ULONG_MAX and a negative one
      is negated modulo 2^64. */
  function StrToULong16(s: string): (v: nat)
    ensures v <= UlongMax
  {
    var t := SkipSpace(s);
    var negative := t != [] && t[0] == '-';
    var u := if t != [] && (t[0] == '-' || t[0] == '+') then t[1..] else t;
    var w := if |u| >= 2 && u[0] == '0' && (u[1] == 'x' || u[1] == 'X') then u[2..] else u;
    var magnitude := HexValue(HexRun(w));
    if magnitude > UlongMax then UlongMax
    else if negative && magnitude > 0 then UlongMax + 1 - magnitude
    else magnitude
  }

  /** destream(s): the genes read from s, one per piece. The first piece
      runs up to the first "0x" found from position 2, and so on; each piece
      is converted by strtoul and truncated to a byte. */
  function Destream(s: string): seq<Gene>
    decreases |s|
  {
    if s == [] then []
    else match Find0x(s, 2)
      case Some(loc) => [ToGene(StrToULong16(s[..loc]))] + Destream(s[loc..])
      case None => [ToGene(StrToULong16(s))]
  }

  /** One step of destream: the first piece, then the text from the next
      "0x" on. */
  lemma DestreamUnfold(s: string)
    requires s != []
    ensures Find0x(s, 2).Some? ==>
      Destream(s) == [ToGene(StrToULong16(s[..Find0x(s, 2).value]))] + Destream(s[Find0x(s, 2).value..])
    ensures Find0x(s, 2).None? ==> Destream(s) == [ToGene(StrToULong16(s))]
  {
  }

  /** Enstream read from the front: the first gene's token, then the rest. */
  lemma {:induction false} EnstreamCons(genes: seq<Gene>)
    requires genes != []
    ensures Enstream(genes) == Token(genes[0]) + Enstream(genes[1..])
    decreases |genes|
  {
    if |genes| > 1 {
      var init := genes[..|genes| - 1];
      EnstreamCons(init);
      assert init[1..] == genes[1..][..|genes[1..]| - 1];
      assert init[0] == genes[0];
      assert genes[1..][|genes[1..]| - 1] == genes[|genes| - 1];
    } else {
      assert genes[1..] == [];
      assert genes[..0] == [];
    }
  }

  /** A run of hex digits is read whole. */
  lemma {:induction false} HexRunOfDigits(s: string)
    requires forall i :: 0 <= i < |s| ==> IsHexDigit(s[i])
    ensures HexRun(s) == s
    decreases |s|
  {
    if s != [] {
      HexRunOfDigits(s[1..]);
      assert s == [s[0]] + s[1..];
    }
  }

  /** strtoul reads a gene's token back as the gene's value. */
  lemma ParseToken(g: Gene)
    ensures StrToULong16(Token(g)) == g
  {
    var t := Token(g);
    assert SkipSpace(t) == t;
    assert t[2..] == HexDigits(g);
    HexRunOfDigits(HexDigits(g));
  }

  /** After a token, the next "0x" from position 2 is the start of the next
      token: hex digits never contain an 'x'. */
  lemma FindAfterToken(g: Gene, rest: string)
    requires rest == [] || PrefixAt(rest, 0)
    ensures Find0x(Token(g) + rest, 2) == if rest == [] then None else Some(|Token(g)|)
  {
    var t := Token(g);
    var s := t + rest;
    forall p | 2 <= p < |t|
      ensures !PrefixAt(s, p)
    {
      if p + 1 < |t| {
        assert s[p + 1] == HexDigits(g)[p - 1];
      } else if rest != [] {
        assert s[p + 1] == rest[0];
      }
    }
    if rest == [] {
      assert s == t;
    } else {
      assert PrefixAt(s, |t|);
      var r := Find0x(s, 2);
      assert r.Some?;
    }
  }

  /** Destream reads a token followed by the start of another token (or by
      nothing) as the token's gene, then goes on with the rest. */
  lemma DestreamToken(g: Gene, rest: string)
    requires rest == [] || PrefixAt(rest, 0)
    ensures Destream(Token(g) + rest) == [g] + Destream(rest)
  {
    var t := Token(g);
    var s := t + rest;
    FindAfterToken(g, rest);
    ParseToken(g);
    DestreamUnfold(s);
    assert s[..|t|] == t;
    assert s[|t|..] == rest;
    if rest == [] {
      assert s == t;
    }
  }

  /** A non-empty enstream starts with "0x". */
  lemma EnstreamStart(genes: seq<Gene>)
    requires genes != []
    ensures PrefixAt(Enstream(genes), 0)
  {
    EnstreamCons(genes);
  }

  /** Round trip: destream(enstream(g)) rebuilds exactly the genes g. */
  lemma {:induction false} DestreamEnstream(genes: seq<Gene>)
    ensures Destream(Enstream(genes)) == genes
    decreases |genes|
  {
    if genes != [] {
      EnstreamCons(genes);
      if genes[1..] != [] {
        EnstreamStart(genes[1..]);
      }
      DestreamToken(genes[0], Enstream(genes[1..]));
      DestreamEnstream(genes[1..]);
      assert genes == [genes[0]] + genes[1..];
    }
  }

  /** The empty text holds no genes. */
  lemma DestreamEmpty()
    ensures Destream("") == []
  {
  }
}
