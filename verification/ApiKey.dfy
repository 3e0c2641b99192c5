/**
  API key tokens: `acd_<env>_<key id>_<secret>`. The key id and the secret are URL-safe
  base64 and may contain underscores, so a token is read by position.

  Headers are sequences of code points.
*/
module ApiKey {
  import opened Prelude
  import opened Base64
  import opened KeyStore

  const ID_BYTES := 12
  const SECRET_BYTES := 24
  const ID_CHARS := 16
  const SECRET_CHARS := 32

  datatype ParsedKey = ParsedKey(env: string, keyId: string, secret: string, full: string)

  // ---- trimming ----------------------------------------------------------------------------

  /** Unicode white space. */
  predicate IsSpace(c: char) {
    '\t' <= c <= '\r' || c == ' ' || c == '\U{85}' || c == '\U{A0}' || c == '\U{1680}' ||
    '\U{2000}' <= c <= '\U{200A}' || c == '\U{2028}' || c == '\U{2029}' || c == '\U{202F}' ||
    c == '\U{205F}' || c == '\U{3000}'
  }

  /** The code points with the property White_Space. */
  lemma SpacesAre(c: char)
    ensures IsSpace(c) <==>
            c in {'\t', '\n', '\U{b}', '\U{c}', '\r', ' ', '\U{85}', '\U{a0}', '\U{1680}', '\U{2000}', '\U{2001}', '\U{2002}',
                  '\U{2003}', '\U{2004}', '\U{2005}', '\U{2006}', '\U{2007}', '\U{2008}', '\U{2009}', '\U{200a}', '\U{2028}',
                  '\U{2029}', '\U{202f}', '\U{205f}', '\U{3000}'}
  {
  }

  ghost predicate Blank(s: string) {
    forall i | 0 <= i < |s| :: IsSpace(s[i])
  }

  /** Not empty, and no space at either end. */
  ghost predicate Solid(s: string) {
    s != "" && !IsSpace(s[0]) && !IsSpace(s[|s| - 1])
  }

  function TrimLeft(s: string): string {
    if s != "" && IsSpace(s[0]) then TrimLeft(s[1..]) else s
  }

  function TrimRight(s: string): string {
    if s != "" && IsSpace(s[|s| - 1]) then TrimRight(s[..|s| - 1]) else s
  }

  function TrimSpace(s: string): string {
    TrimRight(TrimLeft(s))
  }

  lemma {:induction false} TrimLeftDrops(w: string, s: string)
    requires Blank(w) && s != "" && !IsSpace(s[0])
    ensures TrimLeft(w + s) == s
  {
    if w == "" {
      assert w + s == s;
    } else {
      var e := w + s;
      assert e[1..] == w[1..] + s;
      TrimLeftDrops(w[1..], s);
    }
  }

  lemma {:induction false} TrimRightDrops(s: string, w: string)
    requires Blank(w) && s != "" && !IsSpace(s[|s| - 1])
    ensures TrimRight(s + w) == s
  {
    if w == "" {
      assert s + w == s;
    } else {
      var e, k := s + w, |w| - 1;
      assert e[..|e| - 1] == s + w[..k];
      TrimRightDrops(s, w[..k]);
    }
  }

  lemma TrimDrops(w: string, s: string, w': string)
    requires Blank(w) && Blank(w') && Solid(s)
    ensures TrimSpace(w + s + w') == s
  {
    assert w + s + w' == w + (s + w');
    TrimLeftDrops(w, s + w');
    TrimRightDrops(s, w');
  }

  // ---- parsing ----------------------------------------------------------------------------------

  predicate HasPrefix(s: string, p: string) {
    |p| <= |s| && s[..|p|] == p
  }

  function TrimPrefix(s: string, p: string): string {
    if HasPrefix(s, p) then s[|p|..] else s
  }

  /** Position of the first `c`, or -1. */
  function IndexByte(s: string, c: char): (r: int)
    ensures -1 <= r < |s| && (r >= 0 ==> s[r] == c) && (r < 0 ==> c !in s)
    ensures forall i | 0 <= i < r :: s[i] != c
  {
    if s == "" then -1
    else if s[0] == c then 0
    else var r := IndexByte(s[1..], c); if r < 0 then -1 else r + 1
  }

  function ParseBearer(header: string): Option<ParsedKey> {
    var trimmed := TrimSpace(header);
    if trimmed == "" then None
    else
      var token := TrimSpace(TrimPrefix(trimmed, "Bearer "));
      if !HasPrefix(token, "acd_") then None else ParseToken(token)
  }

  function ParseToken(token: string): Option<ParsedKey>
    requires HasPrefix(token, "acd_")
  {
    var rest := token[|"acd_"|..];
    var sep := IndexByte(rest, '_');
    if sep < 1 then None
    else
      var env, tail := rest[..sep], rest[sep + 1..];
      if !ValidEnv(env) then None
      else if |tail| != ID_CHARS + 1 + SECRET_CHARS then None
      else if tail[ID_CHARS] != '_' then None
      else Some(ParsedKey(env, tail[..ID_CHARS], tail[ID_CHARS + 1..], token))
  }

  /** The token a header carries. */
  function Bare(header: string): string {
    TrimSpace(TrimPrefix(TrimSpace(header), "Bearer "))
  }

  function Token(env: string, keyId: string, secret: string): string {
    "acd_" + env + "_" + keyId + "_" + secret
  }

  ghost predicate WellFormed(k: ParsedKey) {
    && ValidEnv(k.env) && |k.keyId| == ID_CHARS && |k.secret| == SECRET_CHARS
    && k.full == Token(k.env, k.keyId, k.secret)
  }

  lemma EnvHasNoSeparator(env: string)
    requires ValidEnv(env)
    ensures '_' !in env && env != ""
  {
  }

  /** The first separator ends the environment. */
  lemma SeparatorAt(env: string, tail: string)
    requires '_' !in env
    ensures IndexByte(env + "_" + tail, '_') == |env|
  {
    var s, r := env + "_" + tail, IndexByte(env + "_" + tail, '_');
    assert s[|env|] == '_';
    assert forall i | 0 <= i < |env| :: s[i] == env[i];
  }

  lemma TokenSplits(env: string, keyId: string, secret: string)
    requires |keyId| == ID_CHARS
    ensures var t, tail := Token(env, keyId, secret), keyId + "_" + secret;
            && HasPrefix(t, "acd_") && t[|"acd_"|..] == env + "_" + tail
            && (env + "_" + tail)[..|env|] == env && (env + "_" + tail)[|env| + 1..] == tail
            && tail[ID_CHARS] == '_' && tail[..ID_CHARS] == keyId && tail[ID_CHARS + 1..] == secret
  {
  }

  lemma ParseOfToken(k: ParsedKey)
    requires WellFormed(k)
    ensures HasPrefix(k.full, "acd_") && ParseToken(k.full) == Some(k)
  {
    EnvHasNoSeparator(k.env);
    TokenSplits(k.env, k.keyId, k.secret);
    SeparatorAt(k.env, k.keyId + "_" + k.secret);
  }

  lemma TokenOfParse(token: string)
    requires HasPrefix(token, "acd_") && ParseToken(token).Some?
    ensures WellFormed(ParseToken(token).value) && ParseToken(token).value.full == token
  {
    var k := ParseToken(token).value;
    var rest := token[|"acd_"|..];
    var sep := IndexByte(rest, '_');
    var tail := rest[sep + 1..];
    assert tail == k.keyId + "_" + k.secret;
    assert rest == k.env + "_" + tail;
    assert token == "acd_" + rest;
    TokenSplits(k.env, k.keyId, k.secret);
  }

  /**
    A header is accepted as `k` exactly when the token it carries is the one built from
    the parts of `k`: every field is determined, and nothing else is let through.
  */
  lemma ParseIff(header: string, k: ParsedKey)
    ensures ParseBearer(header) == Some(k) <==> WellFormed(k) && k.full == Bare(header)
  {
    assert TrimSpace(header) == "" ==> Bare(header) == "";
    if WellFormed(k) && k.full == Bare(header) {
      ParseOfToken(k);
    }
    if ParseBearer(header) == Some(k) {
      TokenOfParse(Bare(header));
    }
  }

  // ---- minting ------------------------------------------------------------------------------------

  /** The random bytes are given; an unknown environment is refused. */
  function Mint(env: string, id: seq<Byte>, secret: seq<Byte>): Option<ParsedKey>
    requires |id| == ID_BYTES && |secret| == SECRET_BYTES
  {
    if !ValidEnv(env) then None
    else
      var keyId, sec := Encode(id, Url), Encode(secret, Url);
      Some(ParsedKey(env, keyId, sec, Token(env, keyId, sec)))
  }

  lemma MintedIsWellFormed(env: string, id: seq<Byte>, secret: seq<Byte>)
    requires ValidEnv(env) && |id| == ID_BYTES && |secret| == SECRET_BYTES
    ensures WellFormed(Mint(env, id, secret).value) && Solid(Mint(env, id, secret).value.full)
  {
    EncodeShape(id, Url);
    EncodeShape(secret, Url);
    var k := Mint(env, id, secret).value;
    assert k.full[0] == 'a';
    assert k.full[|k.full| - 1] == k.secret[SECRET_CHARS - 1];
    assert IsSymbol(k.secret[SECRET_CHARS - 1], Url);
  }

  /** Every minted token is read back in full, with or without `Bearer `, whatever surrounds it. */
  lemma ParseMinted(env: string, id: seq<Byte>, secret: seq<Byte>, w: string, w': string, w'': string)
    requires ValidEnv(env) && |id| == ID_BYTES && |secret| == SECRET_BYTES
    requires Blank(w) && Blank(w') && Blank(w'')
    ensures var k := Mint(env, id, secret).value;
            && k.full == "acd_" + env + "_" + Encode(id, Url) + "_" + Encode(secret, Url)
            && k.env == env && k.keyId == Encode(id, Url) && k.secret == Encode(secret, Url)
            && ParseBearer(w + k.full + w'') == Some(k)
            && ParseBearer(w + ("Bearer " + w' + k.full) + w'') == Some(k)
  {
    var k := Mint(env, id, secret).value;
    MintedIsWellFormed(env, id, secret);
    BareOfToken(k.full, w, w', w'');
    ParseIff(w + k.full + w'', k);
    ParseIff(w + ("Bearer " + w' + k.full) + w'', k);
  }

  lemma BareOfToken(t: string, w: string, w': string, w'': string)
    requires Solid(t) && t[0] != 'B' && Blank(w) && Blank(w') && Blank(w'')
    ensures Bare(w + t + w'') == t && Bare(w + ("Bearer " + w' + t) + w'') == t
  {
    TrimDrops(w, t, w'');
    TrimSolid("", t);
    assert "" + t == t;
    BearerStripped(w', t);
    TrimDrops(w, "Bearer " + w' + t, w'');
    TrimSolid(w', t);
  }

  lemma TrimSolid(w: string, t: string)
    requires Solid(t) && Blank(w)
    ensures TrimSpace(w + t) == t
  {
    TrimDrops(w, t, "");
    assert w + t + "" == w + t;
  }

  lemma BearerStripped(w: string, t: string)
    requires Solid(t)
    ensures Solid("Bearer " + w + t) && TrimPrefix("Bearer " + w + t, "Bearer ") == w + t
  {
    var h := "Bearer " + w + t;
    assert h[0] == 'B' && h[|h| - 1] == t[|t| - 1];
    assert h[..|"Bearer "|] == "Bearer " && h[|"Bearer "|..] == w + t;
  }

  /** Two mints give the same token only for the same environment, id and secret. */
  lemma MintInjective(env: string, id: seq<Byte>, secret: seq<Byte>, env': string, id': seq<Byte>, secret': seq<Byte>)
    requires ValidEnv(env) && |id| == ID_BYTES && |secret| == SECRET_BYTES
    requires ValidEnv(env') && |id'| == ID_BYTES && |secret'| == SECRET_BYTES
    requires Mint(env, id, secret).value.full == Mint(env', id', secret').value.full
    ensures env == env' && id == id' && secret == secret'
  {
    MintedIsWellFormed(env, id, secret);
    MintedIsWellFormed(env', id', secret');
    ParseOfToken(Mint(env, id, secret).value);
    ParseOfToken(Mint(env', id', secret').value);
    EncodeInjective(id, id', Url);
    EncodeInjective(secret, secret', Url);
  }
}
