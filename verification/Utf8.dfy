// Incremental detokenization. Decoding bytes as UTF-8 with U+FFFD for every maximal ill-formed subpart
// splits wherever the left part does not end in U+FFFD, and for any decoder that splits so, the pieces
// emitted token by token and the flush add up to a full decode.
module Utf8 {
  import opened Basics
  import opened Transformer
  import opened Streaming
  import opened Text

  type Byte = b: int | 0 <= b < 256

  // --- the decoder (RFC 3629, section 4; The Unicode Standard, section 3.9) ----------------------------------------

  /** How many continuation bytes a lead byte asks for; -1 for a byte that starts nothing. */
  function Need(b: Byte): int {
    if b < 0x80 then 0
    else if 0xC2 <= b <= 0xDF then 1
    else if 0xE0 <= b <= 0xEF then 2
    else if 0xF0 <= b <= 0xF4 then 3
    else -1
  }

  /** The second byte's range depends on the lead: no overlong form, no surrogate, nothing above U+10FFFF. */
  predicate SecondOk(lead: Byte, b: Byte) {
    if lead == 0xE0 then 0xA0 <= b <= 0xBF
    else if lead == 0xED then 0x80 <= b <= 0x9F
    else if lead == 0xF0 then 0x90 <= b <= 0xBF
    else if lead == 0xF4 then 0x80 <= b <= 0x8F
    else 0x80 <= b <= 0xBF
  }

  predicate Continues(b: Byte) {
    0x80 <= b <= 0xBF
  }

  /** How many bytes at the front start a well-formed character: a whole one, or its maximal subpart. */
  function Good(bytes: seq<Byte>): (k: nat)
    requires bytes != []
    ensures 1 <= k <= |bytes|
    ensures Need(bytes[0]) >= 0 ==> k <= 1 + Need(bytes[0])
  {
    var need := Need(bytes[0]);
    if need < 1 || |bytes| < 2 || !SecondOk(bytes[0], bytes[1]) then 1
    else if need < 2 || |bytes| < 3 || !Continues(bytes[2]) then 2
    else if need < 3 || |bytes| < 4 || !Continues(bytes[3]) then 3
    else 4
  }

  predicate Whole(bytes: seq<Byte>)
    requires bytes != []
  {
    Need(bytes[0]) >= 0 && Good(bytes) == 1 + Need(bytes[0])
  }

  /** The six bits a continuation byte carries. */
  function Tail(b: Byte): int {
    var i: int := b;
    i - 0x80
  }

  /** The code point of a whole character. */
  function CodePoint(bytes: seq<Byte>): (c: int)
    requires bytes != [] && Whole(bytes)
    ensures 0 <= c < 0xD800 || 0xE000 <= c < 0x11_0000
  {
    var lead: int, need := bytes[0], Need(bytes[0]);
    if need == 0 then lead
    else if need == 1 then (lead - 0xC0) * 0x40 + Tail(bytes[1])
    else if need == 2 then (lead - 0xE0) * 0x1000 + Tail(bytes[1]) * 0x40 + Tail(bytes[2])
    else (lead - 0xF0) * 0x4_0000 + Tail(bytes[1]) * 0x1000 + Tail(bytes[2]) * 0x40 + Tail(bytes[3])
  }

  function FirstChar(bytes: seq<Byte>): char
    requires bytes != []
  {
    if Whole(bytes) then CodePoint(bytes) as char else REPLACEMENT
  }

  function Decode(bytes: seq<Byte>): string {
    if bytes == [] then "" else [FirstChar(bytes)] + Decode(bytes[Good(bytes)..])
  }

  /** More bytes change nothing about a first character that was whole, or cut short by a byte. */
  lemma {:induction false} FirstSettled(a: seq<Byte>, b: seq<Byte>)
    requires a != [] && (Whole(a) || Good(a) < |a|)
    ensures Good(a + b) == Good(a) && FirstChar(a + b) == FirstChar(a)
  {
  }

  /** Decoded text that does not end in U+FFFD: its first character was not cut off by the end. */
  lemma {:induction false} FirstNotCut(a: seq<Byte>)
    requires a != [] && !EndsBroken(Decode(a))
    ensures Whole(a) || Good(a) < |a|
    ensures !EndsBroken(Decode(a[Good(a)..]))
  {
    hide Whole, Good, CodePoint;
    var rest := Decode(a[Good(a)..]);
    assert Decode(a) == [FirstChar(a)] + rest;
    if Good(a) == |a| {
      assert a[Good(a)..] == [] && Decode(a) == [FirstChar(a)];
    }
    assert rest != "" ==> rest[|rest| - 1] == Decode(a)[|Decode(a)| - 1];
  }

  /** Decoding splits wherever the left part does not end in U+FFFD. */
  lemma {:induction false} DecodeSplits(a: seq<Byte>, b: seq<Byte>)
    requires !EndsBroken(Decode(a))
    ensures Decode(a + b) == Decode(a) + Decode(b)
    decreases |a|
  {
    hide Whole, Good, FirstChar, EndsBroken;
    if a == [] {
      assert a + b == b;
    } else {
      var k := Good(a);
      FirstNotCut(a);
      FirstSettled(a, b);
      assert (a + b)[k..] == a[k..] + b;
      DecodeSplits(a[k..], b);
    }
  }

  /** It does not split inside a character: the two bytes of U+00E9 decode apart to two U+FFFD. */
  lemma {:induction false} DecodeInsideCharacter()
    ensures Decode([0xC3, 0xA9]) == ['\U{00E9}'] && Decode([0xC3]) + Decode([0xA9]) == [REPLACEMENT, REPLACEMENT]
  {
    var e: seq<Byte> := [0xC3, 0xA9];
    assert Good(e) == 2 && e[2..] == [];
    assert FirstChar(e) == '\U{00E9}';
    var l: seq<Byte>, r: seq<Byte> := [0xC3], [0xA9];
    assert Good(l) == 1 && l[1..] == [] && Good(r) == 1 && r[1..] == [];
  }

  /** UTF-8 as RFC 3629, section 3, writes it. */
  function Encode(c: char): (r: seq<Byte>)
    ensures 1 <= |r| <= 4
  {
    var n := c as int;
    if n < 0x80 then [n]
    else if n < 0x800 then [0xC0 + n / 0x40, 0x80 + n % 0x40]
    else if n < 0x1_0000 then [0xE0 + n / 0x1000, 0x80 + n / 0x40 % 0x40, 0x80 + n % 0x40]
    else [0xF0 + n / 0x4_0000, 0x80 + n / 0x1000 % 0x40, 0x80 + n / 0x40 % 0x40, 0x80 + n % 0x40]
  }

  function EncodeAll(s: string): seq<Byte> {
    if s == "" then [] else Encode(s[0]) + EncodeAll(s[1..])
  }

  lemma {:induction false} Digits(n: nat)
    ensures n == n / 0x40 * 0x40 + n % 0x40
    ensures n / 0x40 == n / 0x1000 * 0x40 + n / 0x40 % 0x40
    ensures n / 0x1000 == n / 0x4_0000 * 0x40 + n / 0x1000 % 0x40
  {
    assert n / 0x1000 == n / 0x40 / 0x40;
    assert n / 0x4_0000 == n / 0x1000 / 0x40;
  }

  lemma {:induction false} EncodedLead(c: char)
    ensures Need(Encode(c)[0]) == |Encode(c)| - 1
    ensures |Encode(c)| >= 2 ==> SecondOk(Encode(c)[0], Encode(c)[1])
    ensures |Encode(c)| >= 3 ==> Continues(Encode(c)[2])
    ensures |Encode(c)| >= 4 ==> Continues(Encode(c)[3])
  {
    Digits(c as int);
  }

  lemma {:induction false} EncodedWhole(c: char, rest: seq<Byte>)
    ensures Good(Encode(c) + rest) == |Encode(c)| && Whole(Encode(c) + rest)
    ensures CodePoint(Encode(c) + rest) == c as int
  {
    EncodedLead(c);
    Digits(c as int);
    var e, all := Encode(c), Encode(c) + rest;
    assert forall i :: 0 <= i < |e| ==> all[i] == e[i];
  }

  /** Decoding undoes encoding, for every text, U+FFFD included. */
  lemma {:induction false} DecodeEncode(s: string)
    ensures Decode(EncodeAll(s)) == s
    decreases |s|
  {
    hide Encode, Good, Whole, CodePoint;
    if s != "" {
      EncodedWhole(s[0], EncodeAll(s[1..]));
      var bytes := Encode(s[0]) + EncodeAll(s[1..]);
      assert bytes[|Encode(s[0])|..] == EncodeAll(s[1..]);
      DecodeEncode(s[1..]);
    }
  }

  // --- tokens ------------------------------------------------------------------------------------------------------

  /** A byte-level tokenizer: each token stands for some bytes (none for a skipped special token). */
  function Bytes(bytesOf: Token -> seq<Byte>, ids: seq<Token>): seq<Byte> {
    if ids == [] then [] else bytesOf(ids[0]) + Bytes(bytesOf, ids[1..])
  }

  function DecodeTokens(bytesOf: Token -> seq<Byte>, ids: seq<Token>): string {
    Decode(Bytes(bytesOf, ids))
  }

  lemma {:induction false} BytesConcat(bytesOf: Token -> seq<Byte>, a: seq<Token>, b: seq<Token>)
    ensures Bytes(bytesOf, a + b) == Bytes(bytesOf, a) + Bytes(bytesOf, b)
    decreases |a|
  {
    if a == [] {
      assert a + b == b;
    } else {
      assert (a + b)[1..] == a[1..] + b;
      BytesConcat(bytesOf, a[1..], b);
    }
  }

  /** What incremental detokenization needs of a decoder. */
  ghost predicate Splits(decode: seq<Token> -> string) {
    && decode([]) == ""
    && forall a, b :: !EndsBroken(decode(a)) ==> decode(a + b) == decode(a) + decode(b)
  }

  /** Byte-level decoding qualifies. */
  lemma {:induction false} DecodeTokensSplits(bytesOf: Token -> seq<Byte>, decode: seq<Token> -> string)
    requires forall ids :: decode(ids) == DecodeTokens(bytesOf, ids)
    ensures Splits(decode)
  {
    forall a, b | !EndsBroken(decode(a)) ensures decode(a + b) == decode(a) + decode(b) {
      BytesConcat(bytesOf, a, b);
      DecodeSplits(Bytes(bytesOf, a), Bytes(bytesOf, b));
      assert decode(a + b) == DecodeTokens(bytesOf, a + b);
    }
    assert decode([]) == DecodeTokens(bytesOf, []);
  }

  // --- the window --------------------------------------------------------------------------------------------------

  /** Both offsets stand where decoding splits, and everything up to `read` has been emitted. */
  ghost predicate DetokOk(decode: seq<Token> -> string, d: Detok, emitted: string) {
    && d.prefix <= d.read <= |d.ids|
    && !EndsBroken(decode(d.ids[..d.prefix])) && !EndsBroken(decode(d.ids[..d.read]))
    && emitted == decode(d.ids[..d.read])
  }

  lemma {:induction false} SplitAt(decode: seq<Token> -> string, a: seq<Token>, b: seq<Token>)
    requires Splits(decode) && !EndsBroken(decode(a))
    ensures decode(a + b) == decode(a) + decode(b)
  {
  }

  lemma {:induction false} BrokenTail(a: string, b: string)
    ensures b != "" ==> EndsBroken(a + b) == EndsBroken(b)
    ensures b == "" ==> a + b == a && !EndsBroken(b)
  {
  }

  /** What decoding the window from `prefix` on, and its part up to `read`, have to do with full decodes. */
  lemma {:induction false} Window(decode: seq<Token> -> string, ids: seq<Token>, prefix: nat, read: nat)
    requires Splits(decode) && prefix <= read <= |ids|
    requires !EndsBroken(decode(ids[..prefix])) && !EndsBroken(decode(ids[..read]))
    ensures var before, after := decode(ids[prefix..read]), decode(ids[prefix..]);
      && after == before + decode(ids[read..])
      && decode(ids) == decode(ids[..read]) + decode(ids[read..])
      && (after != "" ==> EndsBroken(decode(ids)) == EndsBroken(after))
  {
    hide Splits, EndsBroken;
    var a, b, c := ids[..prefix], ids[prefix..read], ids[read..];
    assert ids[..read] == a + b && ids == a + ids[prefix..] && ids[prefix..] == b + c && ids == ids[..read] + c;
    SplitAt(decode, a, b);
    SplitAt(decode, a, ids[prefix..]);
    SplitAt(decode, ids[..read], c);
    BrokenTail(decode(a), decode(b));
    SplitAt(decode, b, c);
    BrokenTail(decode(a), decode(ids[prefix..]));
  }

  lemma {:induction false} AddOk(decode: seq<Token> -> string, d: Detok, emitted: string, t: Token)
    requires Splits(decode) && DetokOk(decode, d, emitted)
    ensures var (d', piece) := DetokAdd(decode, d, t);
      d'.ids == d.ids + [t] && DetokOk(decode, d', emitted + piece)
  {
    hide Splits, EndsBroken;
    var ids := d.ids + [t];
    assert ids[..d.prefix] == d.ids[..d.prefix] && ids[..d.read] == d.ids[..d.read];
    assert Slice(ids, d.prefix, d.read) == ids[d.prefix..d.read] && Slice(ids, d.prefix, |ids|) == ids[d.prefix..];
    Window(decode, ids, d.prefix, d.read);
    assert ids[..|ids|] == ids;
    var before, after := decode(ids[d.prefix..d.read]), decode(ids[d.prefix..]);
    assert after[|before|..] == decode(ids[d.read..]);
    assert emitted + "" == emitted;
  }

  /** After a flush everything has been emitted. */
  lemma {:induction false} FlushOk(decode: seq<Token> -> string, d: Detok, emitted: string)
    requires Splits(decode) && DetokOk(decode, d, emitted)
    ensures emitted + DetokFlush(decode, d).1 == decode(d.ids)
  {
    hide Splits, EndsBroken;
    var ids := d.ids;
    Window(decode, ids, d.prefix, d.read);
    assert Slice(ids, d.prefix, d.read) == ids[d.prefix..d.read] && Slice(ids, d.prefix, |ids|) == ids[d.prefix..];
    var before, after := decode(ids[d.prefix..d.read]), decode(ids[d.prefix..]);
    assert Slice(after, |before|, |after|) == decode(ids[d.read..]);
  }

  // --- whole streams -------------------------------------------------------------------------------------------------

  /** The pieces emitted for the tokens after g, and what a flush then emits, complete a full decode. */
  lemma {:induction false} WholeDecodes(srv: Serving, g: Gen, tokens: seq<Token>)
    requires Splits(srv.decode) && g.detok.Some? && DetokOk(srv.decode, g.detok.value, g.text)
    ensures WholeText(srv, g, tokens) + Rest(srv, WholeDetok(srv, g, tokens)) == srv.decode(g.detok.value.ids + tokens)
    decreases |tokens|
  {
    hide Splits, DetokOk, DetokAdd, DetokFlush;
    var d := g.detok.value;
    if tokens == [] {
      FlushOk(srv.decode, d, g.text);
      assert d.ids + tokens == d.ids;
    } else {
      AddOk(srv.decode, d, g.text, tokens[0]);
      var g1 := g.(text := g.text + Piece(srv, g, tokens[0]), detok := NextDetok(srv, g, tokens[0]));
      WholeDecodes(srv, g1, tokens[1..]);
      assert g1.detok.value.ids + tokens[1..] == d.ids + tokens;
    }
  }

  lemma {:induction false} NewDetokOk(decode: seq<Token> -> string)
    requires Splits(decode)
    ensures DetokOk(decode, Detok([], 0, 0), "") && Settled(decode, Detok([], 0, 0))
  {
    var none: seq<Token> := [];
    assert none[..0] == none && none[0..] == none;
  }

  /** Nothing is held exactly when the decoded tokens do not end in U+FFFD. */
  ghost predicate Settled(decode: seq<Token> -> string, d: Detok) {
    d.read <= |d.ids| && (decode(d.ids[d.read..]) == "" <==> !EndsBroken(decode(d.ids)))
  }

  lemma {:induction false} AddSettles(decode: seq<Token> -> string, d: Detok, emitted: string, t: Token)
    requires Splits(decode) && DetokOk(decode, d, emitted)
    ensures Settled(decode, DetokAdd(decode, d, t).0)
  {
    var none := decode([]);
    assert none == "";
    hide Splits;
    var ids := d.ids + [t];
    assert ids[..d.prefix] == d.ids[..d.prefix] && ids[..d.read] == d.ids[..d.read];
    assert Slice(ids, d.prefix, d.read) == ids[d.prefix..d.read] && Slice(ids, d.prefix, |ids|) == ids[d.prefix..];
    Window(decode, ids, d.prefix, d.read);
    assert ids[|ids|..] == [];
  }

  lemma {:induction false} RestIs(decode: seq<Token> -> string, d: Detok, emitted: string)
    requires Splits(decode) && DetokOk(decode, d, emitted)
    ensures DetokFlush(decode, d).1 == decode(d.ids[d.read..])
  {
    hide Splits, EndsBroken;
    var ids := d.ids;
    Window(decode, ids, d.prefix, d.read);
    assert Slice(ids, d.prefix, d.read) == ids[d.prefix..d.read] && Slice(ids, d.prefix, |ids|) == ids[d.prefix..];
  }

  /** What the detokenizer still holds after the tokens, in terms of the decoded tokens. */
  lemma {:induction false} WholeSettles(srv: Serving, g: Gen, tokens: seq<Token>)
    requires Splits(srv.decode) && g.detok.Some? && DetokOk(srv.decode, g.detok.value, g.text) && Settled(srv.decode, g.detok.value)
    ensures Rest(srv, WholeDetok(srv, g, tokens)) == "" <==> !EndsBroken(srv.decode(g.detok.value.ids + tokens))
    decreases |tokens|
  {
    hide Splits, DetokOk, DetokAdd, DetokFlush, EndsBroken;
    var d := g.detok.value;
    if tokens == [] {
      RestIs(srv.decode, d, g.text);
      assert d.ids + tokens == d.ids;
    } else {
      AddOk(srv.decode, d, g.text, tokens[0]);
      AddSettles(srv.decode, d, g.text, tokens[0]);
      var g1 := g.(text := g.text + Piece(srv, g, tokens[0]), detok := NextDetok(srv, g, tokens[0]));
      WholeSettles(srv, g1, tokens[1..]);
      assert g1.detok.value.ids + tokens[1..] == d.ids + tokens;
    }
  }

  /** Streaming a request with a byte-level tokenizer, told of its decoded output alone. The text searched for
      stop strings is all of the decoded output exactly when that does not end in U+FFFD, and then what is
      returned is the decoded output cut at its earliest stop string. In general it is so exactly when the
      earliest stop string of the decoded output lies in the text searched. */
  lemma {:induction false} StreamedIsDecode(m: Model, srv: Serving, params: Params, prompt: seq<Token>)
    requires prompt != [] && ValidStops(params.stop) && Splits(srv.decode)
    ensures var g := NewGen(prompt, true);
      var r := SoloRun(m, srv, params, g).0;
      && prompt < r.tokens
      && var output := r.tokens[|prompt|..];
         var text, full := WholeText(srv, g, output), srv.decode(output);
         && text <= full && (text == full <==> !EndsBroken(full))
         && (IsCut(full, params.stop, Joined(r.said)) <==> forall i: nat :: Earliest(full, params.stop, i) ==> StopsAt(text, params.stop, i))
         && (!EndsBroken(full) ==> IsCut(full, params.stop, Joined(r.said)))
  {
    hide SoloRun, NoStop, IsCut, Earliest, StopsAt, Joined, WholeText, WholeDetok, Rest, Splits, DetokOk, Clean,
      ValidStops, EndsBroken, Settled;
    var g := NewGen(prompt, true);
    NewClean(params, prompt, true);
    RunReturns(m, srv, params, g);
    NewDetokOk(srv.decode);
    var r := SoloRun(m, srv, params, g).0;
    var output := r.tokens[|prompt|..];
    WholeDecodes(srv, g, output);
    WholeSettles(srv, g, output);
    assert [] + output == output;
    var text, rest := WholeText(srv, g, output), Rest(srv, WholeDetok(srv, g, output));
    CutOfFull(text, srv.decode(output), params.stop, Joined(r.said));
    AllSearched(text, srv.decode(output), params.stop, Joined(r.said));
  }

  lemma {:induction false} AllSearched(text: string, full: string, stops: seq<string>, r: string)
    requires if NoStop(text, stops) then r == full else IsCut(text, stops, r)
    ensures text == full ==> IsCut(full, stops, r)
  {
  }
}
