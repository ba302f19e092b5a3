/** The password hash string: printed by cmd/hash-password and parsed by the configuration
    (parseArgon2ID), with the part of fmt.Sscanf the parser relies on. Argon2id itself is any
    function of its inputs. */
module Phc {
  import opened Text
  import opened Results
  import opened Base64

  const UINT32_LIMIT: nat := 0x1_0000_0000
  const MAX_DIGEST_LENGTH: nat := 4096

  datatype Params = Params(memory: nat, time: nat, threads: nat, salt: Bytes, hash: Bytes)

  datatype ParseError = NotArgon2id | BadParameters | BadSalt | BadDigest | DigestTooLong

  // argon2.IDKey(password, salt, time, memory, threads, keyLen)
  type Kdf = (Bytes, Bytes, nat, nat, nat, nat) -> Bytes

  // ------------------------------------------------------------ fmt.Sscanf

  // The width of the space, as unicode.White_Space in UTF-8, at the start of s; 0 without one
  function SpaceWidth(s: string): (w: nat)
    ensures w <= |s|
  {
    var at := (i: nat) => if i < |s| then s[i] as int else -1;
    if 0x09 <= at(0) <= 0x0D || at(0) == 0x20 then 1
    else if at(0) == 0xC2 && (at(1) == 0x85 || at(1) == 0xA0) then 2
    else if at(0) == 0xE1 && at(1) == 0x9A && at(2) == 0x80 then 3
    else if at(0) == 0xE2 && at(1) == 0x80
         && (0x80 <= at(2) <= 0x8A || at(2) == 0xA8 || at(2) == 0xA9 || at(2) == 0xAF) then 3
    else if at(0) == 0xE2 && at(1) == 0x81 && at(2) == 0x9F then 3
    else if at(0) == 0xE3 && at(1) == 0x80 && at(2) == 0x80 then 3
    else 0
  }

  // Space before a number is skipped, a newline is an error.
  function SkipSpace(s: string): Option<string> {
    if s == "" then Some(s)
    else if s[0] == '\n' then None
    else if SpaceWidth(s) == 0 then Some(s)
    else SkipSpace(s[SpaceWidth(s)..])
  }

  predicate IsDigit(c: char) { '0' <= c <= '9' }

  // The length of the longest run of digits at the start of s
  function DigitRun(s: string): (n: nat)
    ensures n <= |s| && (forall i :: 0 <= i < n ==> IsDigit(s[i])) && (n < |s| ==> !IsDigit(s[n]))
  {
    if s != "" && IsDigit(s[0]) then 1 + DigitRun(s[1..]) else 0
  }

  // %d into an unsigned integer below limit: the number and the input that follows
  function ScanUint(s: string, limit: nat): Option<(nat, string)> {
    match SkipSpace(s)
    case None => None
    case Some(t) =>
      var n := DigitRun(t);
      if n == 0 || Value(t[..n]) >= limit then None else Some((Value(t[..n]), t[n..]))
  }

  // Literal text of the format, then %d
  function ScanField(s: string, literal: string, limit: nat): Option<(nat, string)> {
    if literal <= s then ScanUint(s[|literal|..], limit) else None
  }

  // Sscanf(s, "m=%d,t=%d,p=%d", ...): what follows the last number is not looked at.
  function ScanParameters(s: string): Option<(nat, nat, nat)> {
    match ScanField(s, "m=", UINT32_LIMIT)
    case None => None
    case Some((memory, s1)) =>
      match ScanField(s1, ",t=", UINT32_LIMIT)
      case None => None
      case Some((time, s2)) =>
        match ScanField(s2, ",p=", TWO64)
        case None => None
        case Some((threads, _)) => Some((memory, time, threads))
  }

  // ------------------------------------------------------------ parseArgon2ID

  function Parse(encoded: string): Result<Params, ParseError> {
    var parts := Split(encoded, '$');
    if |parts| != 6 || parts[0] != "" || parts[1] != "argon2id" || parts[2] != "v=19" then Err(NotArgon2id)
    else
      match ScanParameters(parts[3])
      case None => Err(BadParameters)
      case Some((memory, time, threads)) =>
        if memory == 0 || time == 0 || threads == 0 || threads > 255 then Err(BadParameters)
        else
          var salt, hash := Decode(parts[4]), Decode(parts[5]);
          if salt.None? || |salt.value| < 8 then Err(BadSalt)
          else if hash.None? || |hash.value| < 16 then Err(BadDigest)
          else if |hash.value| > MAX_DIGEST_LENGTH then Err(DigestTooLong)
          else Ok(Params(memory, time, threads, salt.value, hash.value))
  }

  // VerifyPassword
  function VerifyPassword(kdf: Kdf, encoded: string, password: Bytes): Result<bool, ParseError> {
    match Parse(encoded)
    case Err(error) => Err(error)
    case Ok(p) => Ok(kdf(password, p.salt, p.time, p.memory, p.threads, |p.hash|) == p.hash)
  }

  // ------------------------------------------------------------ hash-password

  datatype UsageError = EmptyPassword | BadTime | BadMemory | BadThreads | BadKeyLength

  function Print(p: Params): string {
    "$argon2id$v=19$" + PrintParameters(p.memory, p.time, p.threads) + "$" + Encode(p.salt) + "$" + Encode(p.hash)
  }

  function PrintParameters(memory: nat, time: nat, threads: nat): string {
    "m=" + Decimal(memory) + ",t=" + Decimal(time) + ",p=" + Decimal(threads)
  }

  function HashPassword(kdf: Kdf, password: Bytes, memory: nat, time: nat, threads: nat, keyLen: nat, salt: Bytes)
    : Result<string, UsageError>
  {
    if password == [] then Err(EmptyPassword)
    else if time == 0 || time >= UINT32_LIMIT then Err(BadTime)
    else if memory == 0 || memory >= UINT32_LIMIT then Err(BadMemory)
    else if threads == 0 || threads > 255 then Err(BadThreads)
    else if keyLen == 0 || keyLen >= UINT32_LIMIT then Err(BadKeyLength)
    else Ok(Print(Params(memory, time, threads, salt, kdf(password, salt, time, memory, threads, keyLen))))
  }

  // ------------------------------------------------------------ round trip

  predicate InRange(p: Params) {
    0 < p.memory < UINT32_LIMIT && 0 < p.time < UINT32_LIMIT && 0 < p.threads <= 255
  }

  lemma ScanUintDecimal(n: nat, rest: string, limit: nat)
    requires rest == "" || !IsDigit(rest[0])
    ensures ScanUint(Decimal(n) + rest, limit) == if n < limit then Some((n, rest)) else None
  {
    var ds := Decimal(n);
    var s := ds + rest;
    assert IsDigit(s[0]);
    assert SkipSpace(s) == Some(s);
    assert DigitRun(s) == |ds| by {
      assert forall i :: 0 <= i < |ds| ==> IsDigit(s[i]);
      assert rest != "" ==> s[|ds|] == rest[0];
    }
    assert s[..|ds|] == ds && s[|ds|..] == rest;
    DecimalValue(n);
  }

  lemma ScanFieldDecimal(literal: string, n: nat, rest: string, limit: nat)
    requires rest == "" || !IsDigit(rest[0])
    ensures ScanField(literal + Decimal(n) + rest, literal, limit) == if n < limit then Some((n, rest)) else None
  {
    var s := literal + Decimal(n) + rest;
    assert s[|literal|..] == Decimal(n) + rest;
    ScanUintDecimal(n, rest, limit);
  }

  lemma ScanPrinted(memory: nat, time: nat, threads: nat, junk: string)
    requires junk == "" || !IsDigit(junk[0])
    ensures ScanParameters(PrintParameters(memory, time, threads) + junk)
            == if memory < UINT32_LIMIT && time < UINT32_LIMIT && threads < TWO64 then Some((memory, time, threads))
               else None
  {
    var s2 := ",p=" + Decimal(threads) + junk;
    var s1 := ",t=" + Decimal(time) + s2;
    assert PrintParameters(memory, time, threads) + junk == "m=" + Decimal(memory) + s1;
    ScanFieldDecimal("m=", memory, s1, UINT32_LIMIT);
    ScanFieldDecimal(",t=", time, s2, UINT32_LIMIT);
    ScanFieldDecimal(",p=", threads, junk, TWO64);
  }

  // The printed string with something added after the parallelism parameter
  function PrintWith(p: Params, junk: string): string {
    "$argon2id$v=19$" + PrintParameters(p.memory, p.time, p.threads) + junk + "$" + Encode(p.salt)
    + "$" + Encode(p.hash)
  }

  function Parts(p: Params, junk: string): seq<string> {
    ["", "argon2id", "v=19", PrintParameters(p.memory, p.time, p.threads) + junk, Encode(p.salt), Encode(p.hash)]
  }

  lemma JoinThree(a: string, b: string, c: string)
    ensures Join([a, b, c], '$') == a + "$" + b + "$" + c
  {
    assert [a, b, c][1..] == [b, c] && [b, c][1..] == [c];
    assert Join([b, c], '$') == b + "$" + c;
  }

  lemma JoinPrinted(head: string, a: string, b: string, c: string)
    requires head == "$argon2id$v=19"
    ensures Join(["", "argon2id", "v=19", a, b, c], '$') == head + "$" + a + "$" + b + "$" + c
  {
    JoinThree("", "argon2id", "v=19");
    JoinThree(a, b, c);
    JoinConcat(["", "argon2id", "v=19"], [a, b, c], '$');
    assert ["", "argon2id", "v=19", a, b, c] == ["", "argon2id", "v=19"] + [a, b, c];
    assert "" + "$" + "argon2id" + "$" + "v=19" == head;
  }

  lemma SplitPrinted(head: string, a: string, b: string, c: string)
    requires head == "$argon2id$v=19" && '$' !in a && '$' !in b && '$' !in c
    ensures Split(head + "$" + a + "$" + b + "$" + c, '$') == ["", "argon2id", "v=19", a, b, c]
  {
    JoinPrinted(head, a, b, c);
    SplitJoin(["", "argon2id", "v=19", a, b, c], '$');
  }

  lemma PrintedParts(p: Params, junk: string)
    requires '$' !in junk
    ensures Split(PrintWith(p, junk), '$') == Parts(p, junk)
  {
    var head, params := "$argon2id$v=19", PrintParameters(p.memory, p.time, p.threads);
    SplitPrinted(head, params + junk, Encode(p.salt), Encode(p.hash));
    assert head + "$" == "$argon2id$v=19$";
    assert head + "$" + (params + junk) == head + "$" + params + junk;
  }

  // What the configuration makes of a set of parameters, a salt and a digest
  function Accepted(p: Params): Result<Params, ParseError> {
    if !InRange(p) then Err(BadParameters)
    else if |p.salt| < 8 then Err(BadSalt)
    else if |p.hash| < 16 then Err(BadDigest)
    else if |p.hash| > MAX_DIGEST_LENGTH then Err(DigestTooLong)
    else Ok(p)
  }

  // The parser does not notice what follows the last parameter.
  lemma ParseIgnoresJunk(p: Params, junk: string)
    requires '$' !in junk && (junk == "" || !IsDigit(junk[0]))
    ensures Parse(PrintWith(p, junk)) == Accepted(p)
  {
    hide ScanParameters, Decode, PrintWith, PrintParameters, Split, Encode;
    PrintedParts(p, junk);
    ScanPrinted(p.memory, p.time, p.threads, junk);
    DecodeEncode(p.salt);
    DecodeEncode(p.hash);
  }

  // A printed string parses to exactly the parameters that went in, unless one of them is out of
  // range or the salt or the digest has a length the parser refuses; the printer checks neither
  // length.
  lemma ParsePrint(p: Params)
    ensures Parse(Print(p)) == Accepted(p)
  {
    assert PrintWith(p, "") == Print(p);
    ParseIgnoresJunk(p, "");
  }

  // Every accepted string, however it was spaced or padded out, has a printed form that parses
  // to the same parameters.
  lemma PrintParsed(encoded: string)
    requires Parse(encoded).Ok?
    ensures InRange(Parse(encoded).value) && Parse(Print(Parse(encoded).value)) == Parse(encoded)
  {
    ParsePrint(Parse(encoded).value);
  }

  // A string is taken for an Argon2id hash exactly if it begins with the algorithm and version 19
  // and has two parts after the parameters.
  lemma NotArgon2idIff(encoded: string)
    ensures Parse(encoded) == Err(NotArgon2id) <==>
              !("$argon2id$v=19$" <= encoded && multiset(encoded)['$'] == 5)
  {
    hide ScanParameters, Decode, Split;
    SplitCount(encoded, '$');
    HeadParts("$argon2id$v=19", encoded);
    assert "$argon2id$v=19" + "$" == "$argon2id$v=19$";
  }

  lemma HeadParts(head: string, s: string)
    requires head == "$argon2id$v=19"
    ensures var parts := Split(s, '$');
            head + "$" <= s <==>
              |parts| > 3 && parts[0] == "" && parts[1] == "argon2id" && parts[2] == "v=19"
  {
    hide Split;
    var first := ["", "argon2id", "v=19"];
    JoinThree(first[0], first[1], first[2]);
    assert head == first[0] + "$" + first[1] + "$" + first[2];
    SplitJoin(first, '$');
    PrefixIsPartsPrefix(head, s, '$');
  }

  lemma PrintedDefaults(memory: nat)
    requires memory == 65536
    ensures PrintParameters(memory, 3, 4) == "m=65536,t=3,p=4"
  {
    hide Decimal;
    DefaultNumbers(memory);
  }

  lemma DefaultNumbers(memory: nat)
    requires memory == 65536
    ensures Decimal(memory) == "65536" && Decimal(3) == "3" && Decimal(4) == "4"
  {
    assert Decimal(65) == "65";
    assert Decimal(655) == Decimal(65) + "5";
    assert Decimal(6553) == "6553";
  }

  lemma EncodedZeros()
    ensures Encode([0, 0, 0]) == "AAAA" && Encode([0]) == "AA"
  {
    assert Pack([0, 0, 0]) == [0, 0, 0, 0] && Pack([0]) == [0, 0];
  }

  // The hash of the defaults of hash-password, with a salt and a key of zeros
  lemma PrintedForm(p: Params)
    requires p == Params(65536, 3, 4, [0, 0, 0], [0])
    ensures Print(p) == "$argon2id$v=19$m=65536,t=3,p=4$AAAA$AA"
  {
    hide Encode, PrintParameters;
    PrintedDefaults(65536);
    assert Encode([0, 0, 0]) == "AAAA" && Encode([0]) == "AA" by { EncodedZeros(); }
  }

  // A hash is printed exactly for a non-empty password and numbers in their ranges. With a key
  // derivation that returns keys of the length asked for, it lets in the password it was made
  // from, and another one exactly when its key is the same - if and only if the salt has at
  // least 8 bytes and the key 16 to 4096.
  lemma {:induction false} PrintedHashVerifies(kdf: Kdf, password: Bytes, other: Bytes,
                            memory: nat, time: nat, threads: nat, keyLen: nat, salt: Bytes)
    requires |kdf(password, salt, time, memory, threads, keyLen)| == keyLen
    ensures HashPassword(kdf, password, memory, time, threads, keyLen, salt).Ok? <==>
              && password != [] && 0 < memory < UINT32_LIMIT && 0 < time < UINT32_LIMIT && 0 < threads < 256
              && 0 < keyLen < UINT32_LIMIT
    ensures HashPassword(kdf, password, memory, time, threads, keyLen, salt).Ok? ==>
            var encoded := HashPassword(kdf, password, memory, time, threads, keyLen, salt).value;
            && (VerifyPassword(kdf, encoded, password) == Ok(true)
                <==> |salt| >= 8 && 16 <= keyLen <= MAX_DIGEST_LENGTH)
            && (|salt| >= 8 && 16 <= keyLen <= MAX_DIGEST_LENGTH ==>
                  VerifyPassword(kdf, encoded, other)
                  == Ok(kdf(other, salt, time, memory, threads, keyLen)
                        == kdf(password, salt, time, memory, threads, keyLen)))
  {
    ParsePrint(Params(memory, time, threads, salt, kdf(password, salt, time, memory, threads, keyLen)));
  }
}
