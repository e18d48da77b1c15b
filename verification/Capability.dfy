/** Signed capability tokens: v1.<payload>.<signature>. */
module Capability {
  import opened Options
  import opened Ordering
  import opened Json
  import opened JsonRoundTrip
  import opened Utf8
  import opened CanonicalJson
  import opened JsonText
  import opened Base64Url

  const DOT: CodePoint := 46

  /** HMAC-SHA-256 under one secret, of the characters of an ASCII string. */
  type Mac = Str -> Bytes

  ghost predicate IsMac(mac: Mac) {
    forall s :: |mac(s)| == 32
  }

  datatype Claims = Claims(runId: Str, tool: Str, scope: Str, expiresAt: int)

  datatype Failure = MALFORMED_TOKEN | SIGNATURE_INVALID

  datatype Decoding = Decoded(claims: Claims) | Refused(why: Failure) | Raised

  function Version(): (r: Str) {
    Ascii("v1")
  }

  function Payload(c: Claims): (r: Json) {
    JObj([(Ascii("run_id"), JStr(c.runId)), (Ascii("tool"), JStr(c.tool)), (Ascii("scope"), JStr(c.scope)),
          (Ascii("exp"), JInt(c.expiresAt))])
  }

  const COMPACT_ASCII := Style(true, false)

  function PayloadText(c: Claims): (r: Str) {
    Print(COMPACT_ASCII, SortKeys(Payload(c)))
  }

  function SigningInput(encoded: Str): (r: Str) {
    Version() + [DOT] + encoded
  }

  function Sign(mac: Mac, signingInput: Str): (r: Str) {
    Encode64(mac(signingInput))
  }

  function Signed(mac: Mac, encoded: Str): (r: Str) {
    SigningInput(encoded) + [DOT] + Sign(mac, SigningInput(encoded))
  }

  function IssueToken(mac: Mac, c: Claims): (r: Str) {
    Signed(mac, Encode64(EncodeAll(PayloadText(c))))
  }

  // -------------------------------------------------------------------------------------- decoding

  /** str.split("."). */
  function Split(s: Str): (r: seq<Str>)
    ensures r != []
  {
    if s == [] then [[]]
    else
      var rest := Split(s[1..]);
      if s[0] == DOT then [[]] + rest else [[s[0]] + rest[0]] + rest[1..]
  }

  predicate IsAscii(s: Str) {
    forall i :: 0 <= i < |s| ==> s[i] < 0x80
  }

  /** json.loads of UTF-8 bytes; None where it raises ValueError. */
  function LoadsBytes(b: Bytes): (r: Option<Json>) {
    match Decode(b)
    case None => None
    case Some(text) => Loads(text)
  }

  function ClaimsOf(j: Json): (r: Option<Claims>) {
    match j
    case JObj(fields) =>
      (match (Get(fields, Ascii("run_id")), Get(fields, Ascii("tool")), Get(fields, Ascii("scope")),
              Get(fields, Ascii("exp")))
       case (Some(JStr(runId)), Some(JStr(tool)), Some(JStr(scope)), Some(JInt(exp))) =>
         Some(Claims(runId, tool, scope, exp))
       case _ => None)
    case _ => None
  }

  function ReadPayload(encoded: Str): (r: Option<Claims>) {
    match Decode64(encoded)
    case None => None
    case Some(bytes) =>
      match LoadsBytes(bytes)
      case None => None
      case Some(j) => ClaimsOf(j)
  }

  /** Signing and compare_digest raise on characters that are not ASCII. */
  function DecodeToken(mac: Mac, token: Str): (r: Decoding) {
    var parts := Split(token);
    if |parts| != 3 || parts[0] != Version() || parts[1] == [] || parts[2] == [] then Refused(MALFORMED_TOKEN)
    else if !IsAscii(parts[1]) || !IsAscii(parts[2]) then Raised
    else if Sign(mac, SigningInput(parts[1])) != parts[2] then Refused(SIGNATURE_INVALID)
    else
      match ReadPayload(parts[1])
      case None => Refused(MALFORMED_TOKEN)
      case Some(claims) => Decoded(claims)
  }

  // -------------------------------------------------------------------------------------- splitting

  lemma {:induction false} SplitAtDot(a: Str, b: Str)
    requires DOT !in a
    ensures Split(a + [DOT] + b) == [a] + Split(b)
  {
    var s := a + [DOT] + b;
    if a == [] {
      assert s[1..] == b;
    } else {
      SplitAtDot(a[1..], b);
      assert s[1..] == a[1..] + [DOT] + b;
      assert Split(s[1..])[0] == a[1..] && Split(s[1..])[1..] == Split(b);
      assert [a[0]] + a[1..] == a;
    }
  }

  lemma {:induction false} SplitNoDot(a: Str)
    requires DOT !in a
    ensures Split(a) == [a]
  {
    if a != [] {
      SplitNoDot(a[1..]);
      assert [a[0]] + a[1..] == a;
    }
  }

  function JoinDots(parts: seq<Str>): (r: Str)
    requires parts != []
  {
    if |parts| == 1 then parts[0] else parts[0] + [DOT] + JoinDots(parts[1..])
  }

  lemma {:induction false} JoinSplit(s: Str)
    ensures JoinDots(Split(s)) == s
  {
    if s != [] {
      var rest := Split(s[1..]);
      JoinSplit(s[1..]);
      var parts := Split(s);
      if s[0] == DOT {
        assert parts[1..] == rest;
        assert [] + [DOT] + JoinDots(rest) == s;
      } else if |rest| == 1 {
        assert s == [s[0]] + s[1..];
      } else {
        assert parts[1..] == rest[1..];
        assert [s[0]] + (rest[0] + [DOT] + JoinDots(rest[1..])) == s;
        assert parts[0] + [DOT] + JoinDots(parts[1..]) == [s[0]] + (rest[0] + [DOT] + JoinDots(rest[1..]));
      }
    }
  }

  lemma JoinThree(parts: seq<Str>)
    requires |parts| == 3
    ensures JoinDots(parts) == parts[0] + [DOT] + (parts[1] + [DOT] + parts[2])
  {
    assert parts[1..][1..] == [parts[2]];
    assert JoinDots(parts[1..]) == parts[1] + [DOT] + parts[2];
  }

  lemma EncodedHasNoDot(b: Bytes)
    ensures DOT !in Encode64(b) && IsAscii(Encode64(b))
  {
  }

  lemma VersionHasNoDot()
    ensures DOT !in Version()
  {
  }

  lemma SplitSigned(mac: Mac, bytes: Bytes)
    requires IsMac(mac) && bytes != []
    ensures
      var encoded := Encode64(bytes);
      var signature := Sign(mac, SigningInput(encoded));
      && Split(Signed(mac, encoded)) == [Version(), encoded, signature]
      && encoded != [] && signature != [] && IsAscii(encoded) && IsAscii(signature)
  {
    hide Encode64, Split, IsAscii;
    var encoded := Encode64(bytes);
    var signature := Sign(mac, SigningInput(encoded));
    Base64RoundTrip(bytes);
    Base64RoundTrip(mac(SigningInput(encoded)));
    EncodedHasNoDot(bytes);
    EncodedHasNoDot(mac(SigningInput(encoded)));
    VersionHasNoDot();
    SplitNoDot(signature);
    SplitAtDot(encoded, signature);
    SplitAtDot(Version(), encoded + [DOT] + signature);
    assert Signed(mac, encoded) == Version() + [DOT] + (encoded + [DOT] + signature);
  }

  // ---------------------------------------------------------------------------------------- payload

  /** The claims a reader sees: ensure_ascii joins split surrogate pairs. */
  function Heard(c: Claims): (r: Claims) {
    Claims(Merge(c.runId), Merge(c.tool), Merge(c.scope), c.expiresAt)
  }

  function SortedPayload(c: Claims): (r: seq<Field>) {
    [(Ascii("exp"), JInt(c.expiresAt)), (Ascii("run_id"), JStr(c.runId)), (Ascii("scope"), JStr(c.scope)),
     (Ascii("tool"), JStr(c.tool))]
  }

  lemma FirstCharDecides(a: Str, b: Str)
    requires a != [] && b != [] && a[0] < b[0]
    ensures LexLess(a, b) && a != b
  {
  }

  lemma KeyOrder()
    ensures LexLess(Ascii("exp"), Ascii("run_id")) && LexLess(Ascii("run_id"), Ascii("scope"))
    ensures LexLess(Ascii("scope"), Ascii("tool")) && LexLess(Ascii("exp"), Ascii("scope"))
    ensures LexLess(Ascii("exp"), Ascii("tool")) && LexLess(Ascii("run_id"), Ascii("tool"))
  {
    hide LexLess;
    FirstCharDecides(Ascii("exp"), Ascii("run_id"));
    FirstCharDecides(Ascii("exp"), Ascii("scope"));
    FirstCharDecides(Ascii("exp"), Ascii("tool"));
    FirstCharDecides(Ascii("run_id"), Ascii("scope"));
    FirstCharDecides(Ascii("run_id"), Ascii("tool"));
    FirstCharDecides(Ascii("scope"), Ascii("tool"));
  }

  lemma KeysAreDistinct()
    ensures Ascii("exp") != Ascii("run_id") && Ascii("exp") != Ascii("scope") && Ascii("exp") != Ascii("tool")
    ensures Ascii("run_id") != Ascii("scope") && Ascii("run_id") != Ascii("tool") && Ascii("scope") != Ascii("tool")
  {
    assert Ascii("exp")[0] != Ascii("run_id")[0] && Ascii("exp")[0] != Ascii("scope")[0];
    assert Ascii("exp")[0] != Ascii("tool")[0] && Ascii("run_id")[0] != Ascii("scope")[0];
    assert Ascii("run_id")[0] != Ascii("tool")[0] && Ascii("scope")[0] != Ascii("tool")[0];
  }

  /** sort_keys puts the four claims in the order exp, run_id, scope, tool. */
  lemma PayloadSorts(c: Claims)
    ensures SortKeys(Payload(c)) == JObj(SortedPayload(c))
  {
    hide *;
    PayloadKeys(c);
    FlatObjectSorts(Payload(c).fields);
    SameFour(Payload(c).fields, SortedPayload(c));
    SortIs(Payload(c).fields, SortedPayload(c));
  }

  lemma FlatObjectSorts(fields: seq<Field>)
    requires forall i :: 0 <= i < |fields| ==> fields[i].1.JStr? || fields[i].1.JInt?
    ensures SortKeys(JObj(fields)) == JObj(Sort(KeyLess, fields))
  {
    hide Sort;
    SortValuesFlat(fields);
  }

  lemma PayloadKeys(c: Claims)
    ensures
      var fields, sorted := Payload(c).fields, SortedPayload(c);
      && Payload(c) == JObj(fields) && (forall i :: 0 <= i < |fields| ==> fields[i].1.JStr? || fields[i].1.JInt?)
      && KeysDistinct(fields) && StrictlySorted(KeyLess, sorted)
      && |fields| == 4 && sorted == [fields[3], fields[0], fields[2], fields[1]]
  {
    hide LexLess, Ascii;
    KeysAreDistinct();
    KeyOrder();
  }

  lemma SameFour(a: seq<Field>, b: seq<Field>)
    requires |a| == 4 && b == [a[3], a[0], a[2], a[1]]
    ensures forall x :: x in a <==> x in b
  {
  }

  lemma SortValuesFlat(fields: seq<Field>)
    requires forall i :: 0 <= i < |fields| ==> fields[i].1.JStr? || fields[i].1.JInt?
    ensures SortValues(fields) == fields
  {
    forall i | 0 <= i < |fields|
      ensures SortValue(fields[i]) == fields[i]
    {
    }
  }

  /** Plain keys read back as they are. */
  lemma AsciiIsSeen(text: string)
    requires forall i :: 0 <= i < |text| ==> text[i] < 128 as char
    ensures Seen(COMPACT_ASCII, Ascii(text)) == Ascii(text)
  {
    MergeIsIdentity(Ascii(text));
  }

  lemma KeysAreSeen()
    ensures Seen(COMPACT_ASCII, Ascii("exp")) == Ascii("exp") && Seen(COMPACT_ASCII, Ascii("tool")) == Ascii("tool")
    ensures Seen(COMPACT_ASCII, Ascii("run_id")) == Ascii("run_id")
    ensures Seen(COMPACT_ASCII, Ascii("scope")) == Ascii("scope")
  {
    AsciiIsSeen("exp");
    AsciiIsSeen("run_id");
    AsciiIsSeen("scope");
    AsciiIsSeen("tool");
  }

  lemma ReceivedOne(style: Style, field: Field, rest: seq<Field>)
    ensures ReceivedFields(style, [field] + rest) == [ReceivedField(style, field)] + ReceivedFields(style, rest)
  {
  }

  lemma PayloadReceived(c: Claims)
    ensures Printable(COMPACT_ASCII, JObj(SortedPayload(c)))
    ensures ReceivedFields(COMPACT_ASCII, SortedPayload(c)) == SortedPayload(Heard(c))
  {
    hide ReceivedFields, Merge, Ascii;
    KeysAreSeen();
    KeysAreDistinct();
    var s := SortedPayload(c);
    assert s == [s[0]] + ([s[1]] + ([s[2]] + ([s[3]] + [])));
    ReceivedOne(COMPACT_ASCII, s[0], [s[1]] + ([s[2]] + ([s[3]] + [])));
    ReceivedOne(COMPACT_ASCII, s[1], [s[2]] + ([s[3]] + []));
    ReceivedOne(COMPACT_ASCII, s[2], [s[3]] + []);
    ReceivedOne(COMPACT_ASCII, s[3], []);
    NothingReceived();
  }

  lemma NothingReceived()
    ensures ReceivedFields(COMPACT_ASCII, []) == []
  {
  }

  lemma GetNext(field: Field, rest: seq<Field>, key: Str)
    ensures Get([field] + rest, key) == if field.0 == key then Some(field.1) else Get(rest, key)
  {
  }

  lemma PayloadFields(c: Claims, key: Str)
    ensures
      Get(SortedPayload(c), key) ==
      if key == Ascii("exp") then Some(JInt(c.expiresAt))
      else if key == Ascii("run_id") then Some(JStr(c.runId))
      else if key == Ascii("scope") then Some(JStr(c.scope))
      else if key == Ascii("tool") then Some(JStr(c.tool))
      else None
  {
    hide Ascii;
    var s := SortedPayload(c);
    assert s == [s[0]] + ([s[1]] + ([s[2]] + ([s[3]] + [])));
    GetNext(s[0], [s[1]] + ([s[2]] + ([s[3]] + [])), key);
    GetNext(s[1], [s[2]] + ([s[3]] + []), key);
    GetNext(s[2], [s[3]] + [], key);
    GetNext(s[3], [], key);
  }

  lemma ClaimsRead(c: Claims)
    ensures ClaimsOf(JObj(SortedPayload(c))) == Some(c)
  {
    hide Ascii, Get;
    KeysAreDistinct();
    PayloadFields(c, Ascii("exp"));
    PayloadFields(c, Ascii("run_id"));
    PayloadFields(c, Ascii("scope"));
    PayloadFields(c, Ascii("tool"));
  }

  /** The text that is encoded and signed, character for character. */
  lemma PayloadTextIs(c: Claims)
    ensures PayloadText(c) ==
      Ascii("{")
      + (Member(false, "exp", PrintInt(c.expiresAt)) + Ascii(",")
         + (Member(false, "run_id", PrintStr(Style(true, false), c.runId)) + Ascii(",")
            + (Member(false, "scope", PrintStr(Style(true, false), c.scope)) + Ascii(",")
               + Member(false, "tool", PrintStr(Style(true, false), c.tool)))))
      + Ascii("}")
  {
    hide SortKeys, PrintField, PrintInt, PrintStr, Member;
    PayloadSorts(c);
    var s := SortedPayload(c);
    MemberIsField(COMPACT_ASCII, "exp", JInt(c.expiresAt));
    MemberIsField(COMPACT_ASCII, "run_id", JStr(c.runId));
    MemberIsField(COMPACT_ASCII, "scope", JStr(c.scope));
    MemberIsField(COMPACT_ASCII, "tool", JStr(c.tool));
    CommaIsSeparator(COMPACT_ASCII);
    MoreFields(COMPACT_ASCII, s[0], [s[1], s[2], s[3]]);
    MoreFields(COMPACT_ASCII, s[1], [s[2], s[3]]);
    MoreFields(COMPACT_ASCII, s[2], [s[3]]);
    assert s == [s[0]] + [s[1], s[2], s[3]];
    assert [s[1]] + [s[2], s[3]] == [s[1], s[2], s[3]] && [s[2]] + [s[3]] == [s[2], s[3]];
  }

  /** A token is "v1", its payload and its signature, joined by dots. */
  lemma TokenTextIs(mac: Mac, c: Claims)
    ensures
      var encoded := Encode64(EncodeAll(PayloadText(c)));
      var signed := Ascii("v1.") + encoded;
      IssueToken(mac, c) == signed + Ascii(".") + Encode64(mac(signed))
  {
    hide Encode64, EncodeAll, PayloadText;
    assert Ascii("v1.") == Ascii("v1") + [DOT] && Ascii(".") == [DOT];
  }

  lemma PayloadReadsBack(c: Claims)
    ensures ReadPayload(Encode64(EncodeAll(PayloadText(c)))) == Some(Heard(c))
  {
    hide Print, SortKeys, Decode64, Decode, Loads, ClaimsOf, Encode64;
    var text := PayloadText(c);
    Base64RoundTrip(EncodeAll(text));
    DecodeEncoded(text);
    PayloadSorts(c);
    PayloadReceived(c);
    LoadsPrinted(COMPACT_ASCII, JObj(SortedPayload(c)));
    ClaimsRead(Heard(c));
  }

  lemma PayloadIsNotEmpty(c: Claims)
    ensures EncodeAll(PayloadText(c)) != []
  {
  }

  // --------------------------------------------------------------------------------------- theorems

  /** What decoding an issued token yields. */
  lemma IssuedTokenDecodes(mac: Mac, c: Claims)
    requires IsMac(mac)
    ensures DecodeToken(mac, IssueToken(mac, c)) == Decoded(Heard(c))
  {
    hide Split, Signed, Sign, ReadPayload, Encode64, EncodeAll, PayloadText, IsAscii, IsMac;
    var bytes := EncodeAll(PayloadText(c));
    PayloadIsNotEmpty(c);
    SplitSigned(mac, bytes);
    PayloadReadsBack(c);
  }

  /** A token decodes to exactly the claims it was issued for unless a claim splits a surrogate pair. */
  lemma TokenRoundTrip(mac: Mac, c: Claims)
    requires IsMac(mac)
    ensures DecodeToken(mac, IssueToken(mac, c)) == Decoded(c)
       <==> !HasSplitPair(c.runId) && !HasSplitPair(c.tool) && !HasSplitPair(c.scope)
  {
    hide DecodeToken, IssueToken, Merge, HasSplitPair;
    IssuedTokenDecodes(mac, c);
    MergeIsIdentity(c.runId);
    MergeIsIdentity(c.tool);
    MergeIsIdentity(c.scope);
  }

  /** Every accepted token is the signed form of its payload: nothing in it can be altered alone. */
  lemma AcceptedIsSigned(mac: Mac, token: Str)
    requires DecodeToken(mac, token).Decoded?
    ensures
      var encoded := Split(token)[1];
      token == Signed(mac, encoded) && ReadPayload(encoded) == Some(DecodeToken(mac, token).claims)
  {
    hide Split, ReadPayload;
    var parts := Split(token);
    JoinSplit(token);
    JoinThree(parts);
  }

  /** Three parts, the right version, a payload and a signature. */
  predicate TokenShaped(token: Str) {
    var parts := Split(token);
    |parts| == 3 && parts[0] == Version() && parts[1] != [] && parts[2] != []
  }

  /** Decoding raises exactly on well-shaped tokens with a character that is not ASCII. */
  lemma DecodeRaisesExactly(mac: Mac, token: Str)
    ensures DecodeToken(mac, token).Raised? <==> TokenShaped(token) && !IsAscii(token)
  {
    hide Split, ReadPayload, Sign;
    if TokenShaped(token) {
      var parts := Split(token);
      JoinSplit(token);
      JoinThree(parts);
      assert token == Version() + [DOT] + (parts[1] + [DOT] + parts[2]);
      AsciiConcat(Version() + [DOT], parts[1] + [DOT] + parts[2]);
      AsciiConcat(Version(), [DOT]);
      AsciiConcat(parts[1] + [DOT], parts[2]);
      AsciiConcat(parts[1], [DOT]);
    }
  }

  /** A token is refused for its signature exactly when it is well shaped but not the signed form of its payload. */
  lemma SignatureRefusedExactly(mac: Mac, token: Str)
    ensures DecodeToken(mac, token) == Refused(SIGNATURE_INVALID) <==>
            TokenShaped(token) && IsAscii(token) && token != Signed(mac, Split(token)[1])
  {
    hide Split, ReadPayload, Encode64;
    DecodeRaisesExactly(mac, token);
    if TokenShaped(token) {
      var parts := Split(token);
      JoinSplit(token);
      JoinThree(parts);
      var head, sign := SigningInput(parts[1]) + [DOT], Sign(mac, SigningInput(parts[1]));
      assert token == head + parts[2] && Signed(mac, parts[1]) == head + sign;
      assert token[|head|..] == parts[2] && Signed(mac, parts[1])[|head|..] == sign;
    }
  }

  lemma AsciiConcat(a: Str, b: Str)
    ensures IsAscii(a + b) <==> IsAscii(a) && IsAscii(b)
  {
    if IsAscii(a + b) {
      assert forall i :: 0 <= i < |a| ==> a[i] == (a + b)[i];
      assert forall i :: 0 <= i < |b| ==> b[i] == (a + b)[|a| + i];
    }
  }

  /** The token "v1.a." followed by one e with an acute accent makes decoding raise. */
  lemma AccentedSignatureRaises(mac: Mac)
    ensures DecodeToken(mac, Version() + [DOT] + ([97] + [DOT] + [0xE9])).Raised?
  {
    hide Split, ReadPayload, Sign;
    VersionHasNoDot();
    SplitNoDot([0xE9]);
    SplitAtDot([97], [0xE9]);
    SplitAtDot(Version(), [97] + [DOT] + [0xE9]);
    assert Split(Version() + [DOT] + ([97] + [DOT] + [0xE9])) == [Version(), [97], [0xE9]];
    assert !IsAscii([0xE9]) by {
      assert [0xE9][0] >= 0x80;
    }
  }
}
