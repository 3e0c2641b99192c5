/**
  Stored secrets: the PHC string `$argon2id$v=19$m=65536,t=2,p=2$<salt>$<hash>` that
  `HashSecret` writes and `VerifySecret` reads. Argon2id is any function of the secret,
  the salt and the cost parameters that returns 32 bytes.
*/
module SecretHash {
  import opened Prelude
  import opened Base64
  import opened Placeholders
  import opened ApiKey

  const VERSION := 19
  const MEMORY := 65536
  const TIME := 2
  const THREADS := 2
  const KEY_LEN := 32

  type Argon = (string, seq<Byte>, nat, nat, nat) -> seq<Byte>

  ghost predicate IsArgon(h: Argon) {
    forall s, salt, t, m, p :: |h(s, salt, t, m, p)| == KEY_LEN
  }

  // ---- writing --------------------------------------------------------------------------------

  function CostText(m: nat, t: nat, p: nat): string {
    "m=" + (Decimal(m) + (",t=" + (Decimal(t) + (",p=" + Decimal(p)))))
  }

  /** The parts with a dollar sign between each two. */
  function Dollars(parts: seq<string>): string {
    if parts == [] then ""
    else if |parts| == 1 then parts[0]
    else parts[0] + "$" + Dollars(parts[1..])
  }

  function Phc(salt: seq<Byte>, hash: seq<Byte>): string {
    Dollars(["", "argon2id", "v=" + Decimal(VERSION), CostText(MEMORY, TIME, THREADS),
             Encode(salt, Std), Encode(hash, Std)])
  }

  /** The random salt is given. */
  function HashSecret(secret: string, salt: seq<Byte>, argon: Argon): string {
    Phc(salt, argon(secret, salt, TIME, MEMORY, THREADS))
  }

  // ---- reading ----------------------------------------------------------------------------------

  /** The parts between dollar signs. */
  function Split(s: string): (r: seq<string>)
    ensures r != []
  {
    if s == "" then [""]
    else if s[0] == '$' then [""] + Split(s[1..])
    else var r := Split(s[1..]); [[s[0]] + r[0]] + r[1..]
  }

  /** What `fmt.Sscanf` skips before a number; None is its "unexpected newline". */
  function SkipSpace(s: string): Option<string> {
    if s == "" then Some(s)
    else if s[0] == '\n' then None
    else if IsSpace(s[0]) then SkipSpace(s[1..])
    else Some(s)
  }

  /** At least one digit: the number and what follows. */
  function ScanDigits(s: string): Option<(nat, string)> {
    var n := Run(s);
    if n == 0 then None else Some((Value(s[..n]), s[n..]))
  }

  /** `%d` into an unsigned integer up to `max`. */
  function ScanUint(s: string, max: nat): Option<(nat, string)> {
    match SkipSpace(s)
    case None => None
    case Some(t) =>
      match ScanDigits(t)
      case None => None
      case Some((n, rest)) => if n <= max then Some((n, rest)) else None
  }

  /** `%d` into a 64-bit integer, which may carry a sign. */
  function ScanInt(s: string): Option<int> {
    match SkipSpace(s)
    case None => None
    case Some(t) =>
      var signed := t != "" && (t[0] == '+' || t[0] == '-');
      match ScanDigits(if signed then t[1..] else t)
      case None => None
      case Some((v, _)) =>
        var n: int := v;
        var n := if signed && t[0] == '-' then -n else n;
        if -0x8000_0000_0000_0000 <= n <= 0x7fff_ffff_ffff_ffff then Some(n) else None
  }

  function AfterPrefix(s: string, p: string): Option<string> {
    if HasPrefix(s, p) then Some(s[|p|..]) else None
  }

  /** `v=%d` */
  function ScanVersion(s: string): Option<int> {
    match AfterPrefix(s, "v=") case None => None case Some(t) => ScanInt(t)
  }

  /** One `%d` after a literal. */
  function ScanField(s: string, p: string, max: nat): Option<(nat, string)> {
    match AfterPrefix(s, p) case None => None case Some(t) => ScanUint(t, max)
  }

  datatype Cost = Cost(m: nat, t: nat, p: nat)

  /** `m=%d,t=%d,p=%d` into two 32-bit and one 8-bit unsigned integers. */
  function ScanCost(s: string): Option<Cost> {
    match ScanField(s, "m=", 0xffff_ffff)
    case None => None
    case Some((m, s1)) =>
      match ScanField(s1, ",t=", 0xffff_ffff)
      case None => None
      case Some((t, s2)) =>
        match ScanField(s2, ",p=", 0xff)
        case None => None
        case Some((p, _)) => Some(Cost(m, t, p))
  }

  datatype Stored = Stored(cost: Cost, salt: seq<Byte>, hash: seq<Byte>)

  /** What a PHC string says, if it is one this server can check. */
  function Read(phc: string): Option<Stored> {
    ReadParts(Split(phc))
  }

  function ReadParts(parts: seq<string>): Option<Stored> {
    if |parts| != 6 || parts[1] != "argon2id" then None
    else if ScanVersion(parts[2]) != Some(VERSION) then None
    else
      match ScanCost(parts[3])
      case None => None
      case Some(cost) =>
        match Decode(parts[4], Std)
        case None => None
        case Some(salt) =>
          match Decode(parts[5], Std)
          case None => None
          case Some(hash) => if |hash| != KEY_LEN then None else Some(Stored(cost, salt, hash))
  }

  /** `phc` is six parts between dollar signs: Argon2id, version 19, the cost, the salt and 32 bytes of hash. */
  ghost predicate Says(phc: string, st: Stored) {
    exists parts :: SaysParts(phc, parts, st)
  }

  ghost predicate SaysParts(phc: string, parts: seq<string>, st: Stored) {
    && |parts| == 6 && (forall i | 0 <= i < 6 :: '$' !in parts[i]) && Dollars(parts) == phc
    && parts[1] == "argon2id" && ScanVersion(parts[2]) == Some(19) && ScanCost(parts[3]) == Some(st.cost)
    && Decode(parts[4], Std) == Some(st.salt) && Decode(parts[5], Std) == Some(st.hash) && |st.hash| == 32
  }

  lemma {:induction false} DollarsSplit(s: string)
    ensures Dollars(Split(s)) == s && forall i | 0 <= i < |Split(s)| :: '$' !in Split(s)[i]
  {
    if s != "" {
      DollarsSplit(s[1..]);
      var r := Split(s[1..]);
      assert s == [s[0]] + s[1..];
      if s[0] == '$' {
        assert ([""] + r)[1..] == r;
      } else {
        assert ([[s[0]] + r[0]] + r[1..])[1..] == r[1..];
        if |r| > 1 {
          assert [s[0]] + (r[0] + "$" + Dollars(r[1..])) == [s[0]] + r[0] + "$" + Dollars(r[1..]);
        }
      }
    }
  }

  /** A string is read if and only if it says so. */
  lemma ReadIff(phc: string, st: Stored)
    ensures Read(phc) == Some(st) <==> Says(phc, st)
  {
    if Read(phc) == Some(st) {
      DollarsSplit(phc);
      assert SaysParts(phc, Split(phc), st);
    }
    if Says(phc, st) {
      var parts :| SaysParts(phc, parts, st);
      SplitDollars(parts);
    }
  }

  lemma SaysAll(phc: string)
    ensures forall st :: Read(phc) == Some(st) <==> Says(phc, st)
  {
    forall st ensures Read(phc) == Some(st) <==> Says(phc, st) {
      ReadIff(phc, st);
    }
  }

  // ---- constant-time comparison -----------------------------------------------------------------

  /** Bitwise operations on non-negative integers. */
  function Xor(a: nat, b: nat): nat {
    if a == 0 && b == 0 then 0 else (if a % 2 == b % 2 then 0 else 1) + 2 * Xor(a / 2, b / 2)
  }

  function Or(a: nat, b: nat): nat {
    if a == 0 && b == 0 then 0 else (if a % 2 == 1 || b % 2 == 1 then 1 else 0) + 2 * Or(a / 2, b / 2)
  }

  lemma {:induction false} XorZero(a: nat, b: nat)
    ensures Xor(a, b) == 0 <==> a == b
  {
    if a != 0 || b != 0 {
      XorZero(a / 2, b / 2);
    }
  }

  lemma {:induction false} OrZero(a: nat, b: nat)
    ensures Or(a, b) == 0 <==> a == 0 && b == 0
  {
    if a != 0 || b != 0 {
      OrZero(a / 2, b / 2);
    }
  }

  /** Looks at every byte before it answers. */
  method ConstantTimeEq(a: seq<Byte>, b: seq<Byte>) returns (r: bool)
    ensures r <==> a == b
  {
    if |a| != |b| {
      return false;
    }
    var v: nat := 0;
    for i := 0 to |a|
      invariant v == 0 <==> a[..i] == b[..i]
    {
      XorZero(a[i], b[i]);
      OrZero(v, Xor(a[i], b[i]));
      v := Or(v, Xor(a[i], b[i]));
      assert a[..i + 1] == a[..i] + [a[i]] && b[..i + 1] == b[..i] + [b[i]];
    }
    assert a[..|a|] == a && b[..|b|] == b;
    return v == 0;
  }

  /** Argon2id panics when asked for no rounds or no threads. */
  predicate Panicky(cost: Cost) {
    cost.t < 1 || cost.p < 1
  }

  /** Does the secret hash to what is stored? */
  ghost predicate Matches(secret: string, phc: string, argon: Argon) {
    match Read(phc)
    case None => false
    case Some(st) => !Panicky(st.cost) && argon(secret, st.salt, st.cost.t, st.cost.m, st.cost.p) == st.hash
  }

  datatype Verdict = Good | Bad | Panic

  method VerifySecret(secret: string, phc: string, argon: Argon) returns (v: Verdict)
    ensures v == Good <==> Matches(secret, phc, argon)
    ensures v == Panic <==> Read(phc).Some? && Panicky(Read(phc).value.cost)
    // in terms of the string: what it says, and what Argon2id makes of the secret
    ensures v == Bad <==> forall st | Says(phc, st) :: st.cost.t >= 1 && st.cost.p >= 1 && argon(secret, st.salt, st.cost.t, st.cost.m, st.cost.p) != st.hash
    ensures v == Panic <==> exists st :: Says(phc, st) && (st.cost.t < 1 || st.cost.p < 1)
  {
    SaysAll(phc);
    match Read(phc) {
      case None => return Bad;
      case Some(st) =>
        if Panicky(st.cost) {
          return Panic;
        }
        var got := argon(secret, st.salt, st.cost.t, st.cost.m, st.cost.p);
        var same := ConstantTimeEq(got, st.hash);
        return if same then Good else Bad;
    }
  }

  // ---- reading undoes writing ----------------------------------------------------------------------

  lemma {:induction false} SplitOne(a: string)
    requires '$' !in a
    ensures Split(a) == [a]
  {
    if a != "" {
      SplitOne(a[1..]);
      assert [a[0]] + a[1..] == a;
    }
  }

  lemma {:induction false} SplitNext(a: string, rest: string)
    requires '$' !in a
    ensures Split(a + "$" + rest) == [a] + Split(rest)
  {
    var s := a + "$" + rest;
    if a == "" {
      assert s[1..] == rest;
    } else {
      assert s[1..] == a[1..] + "$" + rest;
      SplitNext(a[1..], rest);
      assert [a[0]] + a[1..] == a;
    }
  }

  lemma {:induction false} SplitDollars(parts: seq<string>)
    requires parts != [] && forall i | 0 <= i < |parts| :: '$' !in parts[i]
    ensures Split(Dollars(parts)) == parts
  {
    if |parts| == 1 {
      SplitOne(parts[0]);
    } else {
      SplitDollars(parts[1..]);
      SplitNext(parts[0], Dollars(parts[1..]));
      assert parts == [parts[0]] + parts[1..];
    }
  }

  lemma NumeralScans(n: nat, rest: string, max: nat)
    requires n <= max && (rest == "" || !IsDigit(rest[0]))
    ensures ScanUint(Decimal(n) + rest, max) == Some((n, rest))
  {
    var d := Decimal(n);
    var s := d + rest;
    assert IsDigit(d[0]) && s[0] == d[0];
    RunExact(d, rest);
    assert s[..|d|] == d && s[|d|..] == rest;
    ValueOfDecimal(n);
  }

  lemma FieldScans(p: string, n: nat, rest: string, max: nat)
    requires n <= max && (rest == "" || !IsDigit(rest[0]))
    ensures ScanField(p + (Decimal(n) + rest), p, max) == Some((n, rest))
  {
    var s := p + (Decimal(n) + rest);
    assert s[..|p|] == p && s[|p|..] == Decimal(n) + rest;
    NumeralScans(n, rest, max);
  }

  lemma CostScans(m: nat, t: nat, p: nat)
    requires m <= 0xffff_ffff && t <= 0xffff_ffff && p <= 0xff
    ensures ScanCost(CostText(m, t, p)) == Some(Cost(m, t, p))
  {
    var s2 := ",p=" + (Decimal(p) + "");
    var s1 := ",t=" + (Decimal(t) + s2);
    assert Decimal(p) + "" == Decimal(p);
    FieldScans(",p=", p, "", 0xff);
    FieldScans(",t=", t, s2, 0xffff_ffff);
    FieldScans("m=", m, s1, 0xffff_ffff);
  }

  lemma VersionScans(n: nat)
    requires n <= 0x7fff_ffff_ffff_ffff
    ensures ScanVersion("v=" + Decimal(n)) == Some(n)
  {
    var d := Decimal(n);
    var s := "v=" + d;
    assert s[..2] == "v=" && s[2..] == d;
    assert IsDigit(d[0]);
    RunExact(d, "");
    assert d + "" == d && d[..|d|] == d;
    ValueOfDecimal(n);
  }

  lemma NoDollars(n: nat, bs: seq<Byte>)
    ensures '$' !in Decimal(n) && '$' !in Encode(bs, Std)
  {
    EncodeShape(bs, Std);
    assert forall i | 0 <= i < |Decimal(n)| :: IsDigit(Decimal(n)[i]);
    assert !IsSymbol('$', Std);
  }

  lemma CostHasNoDollar(m: nat, t: nat, p: nat)
    ensures '$' !in CostText(m, t, p)
  {
    NoDollars(m, []);
    NoDollars(t, []);
    NoDollars(p, []);
  }

  lemma PhcParts(salt: seq<Byte>, hash: seq<Byte>)
    ensures Split(Phc(salt, hash)) == ["", "argon2id", "v=" + Decimal(VERSION), CostText(MEMORY, TIME, THREADS),
                                       Encode(salt, Std), Encode(hash, Std)]
  {
    NoDollars(VERSION, salt);
    NoDollars(VERSION, hash);
    CostHasNoDollar(MEMORY, TIME, THREADS);
    assert '$' !in "v=" + Decimal(VERSION);
    SplitDollars(["", "argon2id", "v=" + Decimal(VERSION), CostText(MEMORY, TIME, THREADS),
                  Encode(salt, Std), Encode(hash, Std)]);
  }

  lemma PartsSay(parts: seq<string>, cost: Cost, salt: seq<Byte>, hash: seq<Byte>)
    requires |parts| == 6 && parts[1] == "argon2id" && |hash| == KEY_LEN
    requires ScanVersion(parts[2]) == Some(VERSION) && ScanCost(parts[3]) == Some(cost)
    requires Decode(parts[4], Std) == Some(salt) && Decode(parts[5], Std) == Some(hash)
    ensures ReadParts(parts) == Some(Stored(cost, salt, hash))
  {
  }

  /** A stored string says what was stored, for every salt. */
  lemma ReadPhc(salt: seq<Byte>, hash: seq<Byte>)
    requires |hash| == KEY_LEN
    ensures Read(Phc(salt, hash)) == Some(Stored(Cost(MEMORY, TIME, THREADS), salt, hash))
  {
    PhcParts(salt, hash);
    VersionScans(VERSION);
    CostScans(MEMORY, TIME, THREADS);
    DecodeEncode(salt, Std);
    DecodeEncode(hash, Std);
    PartsSay(Split(Phc(salt, hash)), Cost(MEMORY, TIME, THREADS), salt, hash);
  }

  lemma Numerals()
    ensures Decimal(19) == "19" && Decimal(2) == "2" && Decimal(65536) == "65536"
  {
    assert Decimal(65) == "65" && Decimal(655) == "655" && Decimal(6553) == "6553";
  }

  lemma CostIs(m: string, t: string, p: string)
    requires m == "65536" && t == "2" && p == "2"
    ensures "m=" + (m + (",t=" + (t + (",p=" + p)))) == "m=65536,t=2,p=2"
  {
    assert ",p=" + p == ",p=2" && ",t=" + (t + ",p=2") == ",t=2,p=2";
  }

  lemma HeadIs()
    ensures "" + "$" + "argon2id" + "$" + "v=19" + "$" + "m=65536,t=2,p=2" + "$" == "$argon2id$v=19$m=65536,t=2,p=2$"
  {
    assert "" + "$" + "argon2id" + "$" == "$argon2id$";
    assert "$argon2id$" + "v=19" + "$" == "$argon2id$v=19$";
  }

  /** The text that is stored. */
  lemma PhcText(salt: seq<Byte>, hash: seq<Byte>)
    ensures Phc(salt, hash) == "$argon2id$v=19$m=65536,t=2,p=2$" + (Encode(salt, Std) + "$" + Encode(hash, Std))
  {
    Numerals();
    CostIs(Decimal(65536), Decimal(2), Decimal(2));
    assert "v=" + Decimal(VERSION) == "v=19";
    var rest := Encode(salt, Std) + "$" + Encode(hash, Std);
    SixParts("", "argon2id", "v=19", "m=65536,t=2,p=2", Encode(salt, Std), Encode(hash, Std));
    Flat("", "argon2id", "v=19", "m=65536,t=2,p=2", rest);
    HeadIs();
  }

  lemma Flat(p: string, q: string, r: string, s: string, rest: string)
    ensures p + "$" + (q + "$" + (r + "$" + (s + "$" + rest))) == p + "$" + q + "$" + r + "$" + s + "$" + rest
  {
  }

  lemma SixParts(p: string, q: string, r: string, s: string, t: string, u: string)
    ensures Dollars([p, q, r, s, t, u]) == p + "$" + (q + "$" + (r + "$" + (s + "$" + (t + "$" + u))))
  {
    assert [p, q, r, s, t, u][1..] == [q, r, s, t, u] && [q, r, s, t, u][1..] == [r, s, t, u];
    assert [r, s, t, u][1..] == [s, t, u] && [s, t, u][1..] == [t, u] && [t, u][1..] == [u];
    assert Dollars([t, u]) == t + "$" + u;
    assert Dollars([s, t, u]) == s + "$" + (t + "$" + u);
    assert Dollars([r, s, t, u]) == r + "$" + (s + "$" + (t + "$" + u));
  }

  /** Against a stored secret, exactly those verify that hash to the same bytes: the secret itself always. */
  lemma VerifiesIffSameHash(secret: string, other: string, salt: seq<Byte>, argon: Argon)
    requires IsArgon(argon)
    ensures Matches(other, HashSecret(secret, salt, argon), argon)
       <==> argon(other, salt, 2, 65536, 2) == argon(secret, salt, 2, 65536, 2)
  {
    ReadPhc(salt, argon(secret, salt, TIME, MEMORY, THREADS));
  }
}
