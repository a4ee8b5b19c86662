/**
 The bounded tail of a run's output. Text is encoded as UTF-8 (section 3 of RFC 3629), cut to its
 last bytes, and decoded with each maximal ill-formed part replaced by U+FFFD.
 */
module OutputTail {

  const MAX_OUTPUT_BYTES := 65_536
  const REPLACEMENT: char := '\U{FFFD}'

  // ---- UTF-8 ----

  function EncodeChar(c: char): (bytes: seq<int>)
    ensures 1 <= |bytes| <= 4
  {
    var n := c as int;
    if n < 0x80 then [n]
    else if n < 0x800 then [0xC0 + n / 64, 0x80 + n % 64]
    else if n < 0x1_0000 then [0xE0 + n / 4096, 0x80 + n / 64 % 64, 0x80 + n % 64]
    else [0xF0 + n / 262144, 0x80 + n / 4096 % 64, 0x80 + n / 64 % 64, 0x80 + n % 64]
  }

  function Encode(s: string): seq<int> {
    if s == "" then [] else EncodeChar(s[0]) + Encode(s[1..])
  }

  predicate IsContinuation(b: int) { 0x80 <= b < 0xC0 }

  /** How many bytes a sequence with this first byte has; 0 when no sequence starts with it. */
  function SequenceLength(b: int): nat {
    if 0 <= b < 0x80 then 1
    else if 0xC2 <= b < 0xE0 then 2
    else if 0xE0 <= b < 0xF0 then 3
    else if 0xF0 <= b < 0xF5 then 4
    else 0
  }

  /** The second byte is narrower after some first bytes: no overlong form, surrogate or number past U+10FFFF. */
  predicate IsSecond(first: int, b: int) {
    && IsContinuation(b)
    && (first == 0xE0 ==> 0xA0 <= b)
    && (first == 0xED ==> b < 0xA0)
    && (first == 0xF0 ==> 0x90 <= b)
    && (first == 0xF4 ==> b < 0x90)
  }

  /** How much of a sequence of the given length is really there: its maximal well-formed part. */
  function WellFormedPart(bytes: seq<int>, length: nat): (n: nat)
    requires bytes != [] && length >= 2
    ensures 1 <= n <= length && n <= |bytes|
  {
    if |bytes| < 2 || !IsSecond(bytes[0], bytes[1]) then 1
    else if length == 2 || |bytes| < 3 || !IsContinuation(bytes[2]) then 2
    else if length == 3 || |bytes| < 4 || !IsContinuation(bytes[3]) then 3
    else 4
  }

  function CodePoint(bytes: seq<int>, length: nat): int
    requires |bytes| >= length >= 1
  {
    if length == 1 then bytes[0]
    else if length == 2 then (bytes[0] - 0xC0) * 64 + (bytes[1] - 0x80)
    else if length == 3 then (bytes[0] - 0xE0) * 4096 + (bytes[1] - 0x80) * 64 + (bytes[2] - 0x80)
    else if length == 4 then (bytes[0] - 0xF0) * 262144 + (bytes[1] - 0x80) * 4096 + (bytes[2] - 0x80) * 64 + (bytes[3] - 0x80)
    else 0
  }

  /** The first character and how many bytes it took. */
  function DecodeOne(bytes: seq<int>): (r: (char, nat))
    requires bytes != []
    ensures 1 <= r.1 <= |bytes|
  {
    var length := SequenceLength(bytes[0]);
    if length == 0 then (REPLACEMENT, 1)
    else if length == 1 then (bytes[0] as char, 1)
    else
      var n := WellFormedPart(bytes, length);
      if n == length then (CodePoint(bytes, length) as char, n) else (REPLACEMENT, n)
  }

  function Decode(bytes: seq<int>): string {
    if bytes == [] then ""
    else
      var (c, n) := DecodeOne(bytes);
      [c] + Decode(bytes[n..])
  }

  // ---- Encoding and decoding ----

  lemma FirstByte(c: char)
    ensures SequenceLength(EncodeChar(c)[0]) == |EncodeChar(c)|
  {
  }

  lemma Digits(n: nat)
    ensures n == n / 64 * 64 + n % 64
    ensures n / 64 == n / 4096 * 64 + n / 64 % 64
    ensures n / 4096 == n / 262144 * 64 + n / 4096 % 64
  {
    assert n / 64 / 64 == n / 4096;
    assert n / 4096 / 64 == n / 262144;
  }

  lemma NumberOfChar(c: char, rest: seq<int>)
    ensures CodePoint(EncodeChar(c) + rest, |EncodeChar(c)|) == c as int
  {
    var bytes := EncodeChar(c);
    assert forall i :: 0 <= i < |bytes| ==> (bytes + rest)[i] == bytes[i];
    Digits(c as int);
  }

  lemma WholeChar(c: char, rest: seq<int>)
    requires |EncodeChar(c)| >= 2
    ensures WellFormedPart(EncodeChar(c) + rest, |EncodeChar(c)|) == |EncodeChar(c)|
  {
  }

  /** The bytes of a character followed by anything decode to that character. */
  lemma DecodeOneOfEncodeChar(c: char, rest: seq<int>)
    ensures DecodeOne(EncodeChar(c) + rest) == (c, |EncodeChar(c)|)
  {
    FirstByte(c);
    NumberOfChar(c, rest);
    if |EncodeChar(c)| >= 2 {
      hide EncodeChar, CodePoint, WellFormedPart;
      WholeChar(c, rest);
    }
  }

  lemma DecodeChar(c: char, rest: seq<int>)
    ensures Decode(EncodeChar(c) + rest) == [c] + Decode(rest)
  {
    DecodeOneOfEncodeChar(c, rest);
    assert (EncodeChar(c) + rest)[|EncodeChar(c)|..] == rest;
  }

  lemma {:induction false} DecodeEncode(s: string)
    ensures Decode(Encode(s)) == s
  {
    if s != "" {
      DecodeChar(s[0], Encode(s[1..]));
      DecodeEncode(s[1..]);
    }
  }

  lemma {:induction false} EncodeConcat(s: string, t: string)
    ensures Encode(s + t) == Encode(s) + Encode(t)
  {
    if s == "" {
      assert s + t == t;
    } else {
      assert (s + t)[1..] == s[1..] + t;
      EncodeConcat(s[1..], t);
    }
  }

  lemma {:induction false} EncodeIsLonger(s: string)
    ensures |Encode(s)| >= |s|
  {
    if s != "" {
      EncodeIsLonger(s[1..]);
    }
  }

  function Replacements(k: nat): (r: string)
    ensures |r| == k
  {
    seq(k, _ => REPLACEMENT)
  }

  lemma {:induction false} EncodeReplacements(k: nat)
    ensures |Encode(Replacements(k))| == 3 * k
  {
    if k > 0 {
      assert Replacements(k)[1..] == Replacements(k - 1);
      EncodeReplacements(k - 1);
    }
  }

  lemma ContinuationStandsAlone(bytes: seq<int>)
    requires bytes != [] && IsContinuation(bytes[0])
    ensures DecodeOne(bytes) == (REPLACEMENT, 1)
  {
  }

  /** Bytes that start no sequence become one replacement each. */
  lemma {:induction false} DecodeContinuations(bytes: seq<int>, rest: seq<int>)
    requires forall b :: b in bytes ==> IsContinuation(b)
    ensures Decode(bytes + rest) == Replacements(|bytes|) + Decode(rest)
  {
    if bytes == [] {
      assert bytes + rest == rest;
      assert Replacements(0) + Decode(rest) == Decode(rest);
    } else {
      assert bytes[0] in bytes;
      ContinuationStandsAlone(bytes + rest);
      hide DecodeOne;
      assert (bytes + rest)[1..] == bytes[1..] + rest;
      DecodeContinuations(bytes[1..], rest);
      assert Replacements(|bytes|) == [REPLACEMENT] + Replacements(|bytes| - 1);
    }
  }

  lemma TailOfCharIsContinuations(c: char, p: nat)
    requires 0 < p <= |EncodeChar(c)|
    ensures forall b :: b in EncodeChar(c)[p..] ==> IsContinuation(b)
  {
  }

  /** Which characters survive when the first p bytes go, and how many bytes of a broken one are left over. */
  function Cut(s: string, p: nat): (r: (nat, nat))
    requires p <= |Encode(s)|
    ensures r.0 <= 3 && r.1 <= |s|
  {
    if p == 0 then (0, 0)
    else if p >= |EncodeChar(s[0])| then
      var (k, i) := Cut(s[1..], p - |EncodeChar(s[0])|);
      (k, i + 1)
    else (|EncodeChar(s[0])| - p, 1)
  }

  /** Decoding a tail of encoded text gives at most three replacements and then a suffix of the text. */
  lemma {:induction false} DecodeTail(s: string, p: nat)
    requires p <= |Encode(s)|
    ensures var (k, i) := Cut(s, p);
      && Decode(Encode(s)[p..]) == Replacements(k) + s[i..]
      && |Encode(s[i..])| + k == |Encode(s)| - p
  {
    hide EncodeChar, Decode;
    var (k, i) := Cut(s, p);
    if p == 0 {
      assert Encode(s)[0..] == Encode(s) && s[0..] == s && Replacements(0) + s == s;
      DecodeEncode(s);
    } else {
      var head := EncodeChar(s[0]);
      var rest := Encode(s[1..]);
      if p >= |head| {
        DecodeTail(s[1..], p - |head|);
        assert (head + rest)[p..] == rest[p - |head|..];
        assert s[1..][i - 1..] == s[i..];
      } else {
        assert (head + rest)[p..] == head[p..] + rest;
        TailOfCharIsContinuations(s[0], p);
        DecodeContinuations(head[p..], rest);
        DecodeEncode(s[1..]);
      }
    }
  }

  // ---- The stored output ----

  /** The output stored after `text` is appended. */
  function Append(stored: string, text: string): string {
    var merged := stored + text;
    var encoded := Encode(merged);
    if |encoded| > MAX_OUTPUT_BYTES then Decode(encoded[|encoded| - MAX_OUTPUT_BYTES..]) else merged
  }

  function AppendAll(stored: string, chunks: seq<string>): string {
    if chunks == [] then stored else Append(AppendAll(stored, chunks[..|chunks| - 1]), chunks[|chunks| - 1])
  }

  function Concat(chunks: seq<string>): string {
    if chunks == [] then "" else Concat(chunks[..|chunks| - 1]) + chunks[|chunks| - 1]
  }

  predicate IsSuffix(t: string, all: string) { |t| <= |all| && t == all[|all| - |t|..] }

  /**
   The stored output is k replacements and a suffix of everything appended. Either nothing was cut,
   or the suffix misses the limit by exactly the k bytes of a broken character, or an earlier three
   of those were themselves folded into one replacement.
   */
  predicate IsTail(stored: string, all: string, k: nat, t: string) {
    && stored == Replacements(k) + t
    && IsSuffix(t, all)
    && (|| (k == 0 && t == all && |Encode(t)| <= MAX_OUTPUT_BYTES)
        || (k <= 3 && |Encode(t)| == MAX_OUTPUT_BYTES - k)
        || (k == 1 && |Encode(t)| == MAX_OUTPUT_BYTES - 3))
  }

  lemma SuffixGrows(t: string, all: string, text: string, i: nat)
    requires IsSuffix(t, all) && i <= |t + text|
    ensures IsSuffix((t + text)[i..], all + text)
  {
    assert (t + text) == (all + text)[|all| - |t|..];
  }

  lemma SizeOfTail(k: nat, t: string)
    ensures |Encode(Replacements(k) + t)| == 3 * k + |Encode(t)|
  {
    EncodeConcat(Replacements(k), t);
    EncodeReplacements(k);
  }

  lemma DropReplacements(k: nat, rest: string, i: nat)
    requires i <= k + |rest|
    ensures (Replacements(k) + rest)[i..] == if i < k then Replacements(k - i) + rest else rest[i - k..]
  {
  }

  lemma MergedIs(k: nat, t: string, text: string)
    ensures (Replacements(k) + t) + text == Replacements(k) + (t + text)
    ensures |Encode(Replacements(k) + (t + text))| == 3 * k + |Encode(t)| + |Encode(text)|
    ensures |Encode(text)| == 0 ==> text == ""
  {
    hide Encode, Replacements;
    EncodeConcat(t, text);
    SizeOfTail(k, t + text);
    EncodeIsLonger(text);
  }

  /** What fits is kept whole. */
  lemma UncutKeepsTail(all: string, k: nat, t: string, text: string)
    requires IsTail(Replacements(k) + t, all, k, t)
    requires 3 * k + |Encode(t)| + |Encode(text)| <= MAX_OUTPUT_BYTES && (|Encode(text)| == 0 ==> text == "")
    ensures IsTail(Replacements(k) + (t + text), all + text, k, t + text)
  {
    hide Encode, Replacements;
    EncodeConcat(t, text);
    SuffixGrows(t, all, text, 0);
    if text == "" {
      assert t + text == t && all + text == all;
    }
  }

  /** A cut past the replacements leaves a suffix of the text. */
  lemma CutInText(all: string, k: nat, t: string, text: string, broken: nat, i: nat)
    requires IsSuffix(t, all) && k <= i <= k + |t + text| && broken <= 3
    requires |Encode((t + text)[i - k..])| == MAX_OUTPUT_BYTES - broken
    ensures IsTail(Replacements(broken) + (t + text)[i - k..], all + text, broken, (t + text)[i - k..])
  {
    hide Encode, Replacements;
    SuffixGrows(t, all, text, i - k);
  }

  /** A cut among them leaves the last of three, when nothing was appended. */
  lemma CutInReplacements(all: string, k: nat, t: string, text: string, broken: nat, i: nat)
    requires IsTail(Replacements(k) + t, all, k, t) && i < k
    requires 3 * k + |Encode(t)| + |Encode(text)| > MAX_OUTPUT_BYTES
    requires 3 * (k - i) + |Encode(t)| + |Encode(text)| == MAX_OUTPUT_BYTES - broken
    requires |Encode(text)| == 0 ==> text == ""
    ensures k == 3 && i == 2 && broken == 0 && text == ""
    ensures IsTail(Replacements(1) + (t + text), all + text, 1, t + text)
  {
    hide Encode, Replacements;
    assert t + text == t && all + text == all;
  }

  /** One append keeps the form of the stored output. */
  lemma {:induction false} AppendKeepsTail(stored: string, all: string, k: nat, t: string, text: string)
    returns (k': nat, t': string)
    requires IsTail(stored, all, k, t)
    ensures IsTail(Append(stored, text), all + text, k', t')
  {
    hide Encode, Decode, Cut, Replacements, IsSuffix;
    var merged := stored + text;
    MergedIs(k, t, text);
    if |Encode(merged)| <= MAX_OUTPUT_BYTES {
      k', t' := k, t + text;
      UncutKeepsTail(all, k, t, text);
    } else {
      var p := |Encode(merged)| - MAX_OUTPUT_BYTES;
      DecodeTail(merged, p);
      var (broken, i) := Cut(merged, p);
      DropReplacements(k, t + text, i);
      if i >= k {
        k', t' := broken, (t + text)[i - k..];
        CutInText(all, k, t, text, broken, i);
      } else {
        SizeOfTail(k - i, t + text);
        EncodeConcat(t, text);
        CutInReplacements(all, k, t, text, broken, i);
        k', t' := 1, t + text;
        NoReplacements(merged[i..]);
      }
    }
  }

  lemma NoReplacements(s: string)
    ensures Replacements(0) + s == s
  {
  }

  lemma {:induction false} StoredIsTail(chunks: seq<string>) returns (k: nat, t: string)
    ensures IsTail(AppendAll("", chunks), Concat(chunks), k, t)
  {
    if chunks == [] {
      k, t := 0, "";
    } else {
      var last := |chunks| - 1;
      k, t := StoredIsTail(chunks[..last]);
      k, t := AppendKeepsTail(AppendAll("", chunks[..last]), Concat(chunks[..last]), k, t, chunks[last]);
    }
  }

  // ---- Main results ----

  /**
   After any appends the stored output is at most three replacements and a suffix of everything
   appended, never more than six bytes over the limit, and no more than three bytes short of the
   longest tail that fits.
   */
  lemma StoredOutput(chunks: seq<string>)
    ensures |Encode(AppendAll("", chunks))| <= MAX_OUTPUT_BYTES + 6
    ensures exists k: nat, t :: (
      && k <= 3 && IsSuffix(t, Concat(chunks)) && AppendAll("", chunks) == Replacements(k) + t
      && (t == Concat(chunks) || |Encode(t)| >= MAX_OUTPUT_BYTES - 3))
  {
    var k, t := StoredIsTail(chunks);
    SizeOfTail(k, t);
    assert IsSuffix(t, Concat(chunks)) && AppendAll("", chunks) == Replacements(k) + t;
  }

  predicate SingleByte(s: string) { forall c :: c in s ==> c as int < 0x80 }

  lemma SingleByteRest(s: string)
    requires SingleByte(s) && s != ""
    ensures s[0] as int < 0x80 && SingleByte(s[1..])
  {
    assert s[0] in s && forall c :: c in s[1..] ==> c in s;
  }

  lemma {:induction false} SingleByteEncodes(s: string)
    requires SingleByte(s)
    ensures |Encode(s)| == |s|
  {
    if s != "" {
      SingleByteRest(s);
      SingleByteEncodes(s[1..]);
    }
  }

  lemma {:induction false} SingleByteCut(s: string, p: nat)
    requires SingleByte(s) && p <= |s| && |Encode(s)| == |s|
    ensures Cut(s, p) == (0, p)
  {
    if p > 0 {
      SingleByteRest(s);
      SingleByteEncodes(s[1..]);
      SingleByteCut(s[1..], p - 1);
    }
  }

  function LastChars(s: string, n: nat): string { if |s| > n then s[|s| - n..] else s }

  lemma LastOfLast(s: string, text: string, n: nat)
    ensures LastChars(LastChars(s, n) + text, n) == LastChars(s + text, n)
  {
  }

  /** Text of single bytes is kept as exactly its last characters. */
  lemma {:induction false} SingleByteOutput(chunks: seq<string>)
    requires SingleByte(Concat(chunks))
    ensures AppendAll("", chunks) == LastChars(Concat(chunks), MAX_OUTPUT_BYTES)
  {
    if chunks != [] {
      var before, text := chunks[..|chunks| - 1], chunks[|chunks| - 1];
      assert SingleByte(Concat(before)) && SingleByte(text) by {
        assert forall c :: c in Concat(before) || c in text ==> c in Concat(chunks);
      }
      SingleByteOutput(before);
      var merged := AppendAll("", before) + text;
      assert forall c :: c in LastChars(Concat(before), MAX_OUTPUT_BYTES) ==> c in Concat(before);
      assert SingleByte(merged);
      SingleByteEncodes(merged);
      LastOfLast(Concat(before), text, MAX_OUTPUT_BYTES);
      if |merged| > MAX_OUTPUT_BYTES {
        var p := |merged| - MAX_OUTPUT_BYTES;
        DecodeTail(merged, p);
        SingleByteCut(merged, p);
        assert Replacements(0) + merged[p..] == merged[p..];
      }
    }
  }

  // ---- The stored column ----

  class RunOutputs {
    var recent: map<string, string>
    /** Everything appended to each run so far. */
    ghost var appended: map<string, seq<string>>

    ghost predicate Valid()
      reads this
    {
      && appended.Keys == recent.Keys
      && forall run :: run in recent ==> recent[run] == AppendAll("", appended[run])
    }

    constructor ()
      ensures Valid() && recent == map[]
    {
      recent, appended := map[], map[];
    }

    method CreateRun(run: string)
      requires Valid() && run !in recent
      modifies this
      ensures Valid() && recent == old(recent)[run := ""]
    {
      hide AppendAll;
      NothingAppended();
      recent, appended := recent[run := ""], appended[run := []];
    }

    method AppendOutput(run: string, text: string)
      requires Valid()
      modifies this
      ensures Valid()
      ensures run !in old(recent) ==> recent == old(recent) && appended == old(appended)
      ensures run in old(recent) ==> appended == old(appended)[run := old(appended)[run] + [text]]
      ensures run in old(recent) ==> recent == old(recent)[run := Append(old(recent)[run], text)]
    {
      hide Append, AppendAll, Encode, Decode;
      if run !in recent {
        return;
      }
      var merged := if recent[run] != "" then recent[run] + text else text;
      assert merged == recent[run] + text;
      var encoded := Encode(merged);
      AppendIs(recent[run], text);
      if |encoded| > MAX_OUTPUT_BYTES {
        encoded := encoded[|encoded| - MAX_OUTPUT_BYTES..];
        merged := Decode(encoded);
      }
      ghost var chunks := appended[run] + [text];
      OneMoreChunk(appended[run], text);
      recent := recent[run := merged];
      appended := appended[run := chunks];
    }
  }

  lemma OneMoreChunk(chunks: seq<string>, text: string)
    ensures AppendAll("", chunks + [text]) == Append(AppendAll("", chunks), text)
  {
    assert (chunks + [text])[..|chunks|] == chunks;
  }

  lemma NothingAppended()
    ensures AppendAll("", []) == ""
  {
  }

  lemma AppendIs(stored: string, text: string)
    ensures Append(stored, text) ==
      var encoded := Encode(stored + text);
      if |encoded| > MAX_OUTPUT_BYTES then Decode(encoded[|encoded| - MAX_OUTPUT_BYTES..]) else stored + text
  {
  }
}
