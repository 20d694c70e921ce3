/**
 * `isAuthenticated`: the request's credential against the stored API key.
 * The Authorization header is matched against `/^Bearer\s+(.+)$/i` with
 * PCRE's rules: the scheme in any ASCII letter case, a greedy run of
 * whitespace that gives back one character when nothing else is left,
 * `.` never matching a line feed, and `$` also matching before one final
 * line feed. `hash_equals` is string equality.
 */
module AuthGuard {
  import opened Wrappers
  import opened PhpCast
  import opened Config
  import opened Http

  /** ASCII lower case, the folding the `/i` flag applies. */
  function AsciiLower(c: char): char
  {
    if 'A' <= c <= 'Z' then (c as int - 'A' as int + 'a' as int) as char else c
  }

  /** `s` spells "Bearer" in any letter case. */
  predicate IsBearerScheme(s: string)
  {
    |s| == 6 && forall i :: 0 <= i < 6 ==> AsciiLower(s[i]) == "bearer"[i]
  }

  predicate AllSpace(s: string)
  {
    forall i :: 0 <= i < |s| ==> IsSpace(s[i])
  }

  /** The length of the whitespace run at the start of `s` (what a greedy `\s+` first takes). */
  function SpaceRun(s: string): (k: nat)
    ensures k <= |s| && AllSpace(s[..k])
    ensures k < |s| ==> !IsSpace(s[k])
  {
    if |s| > 0 && IsSpace(s[0]) then 1 + SpaceRun(s[1..]) else 0
  }

  /** `s` without one final line feed: where `$` may match. */
  function Subject(s: string): (t: string)
    ensures t <= s && |s| - 1 <= |t|
  {
    if |s| > 0 && s[|s| - 1] == '\n' then s[..|s| - 1] else s
  }

  /**
   * `header` is "Bearer" (any case), a non-empty run of whitespace, then
   * `token` (non-empty, no line feed), then at most one final line feed:
   * the language of the pattern, with `token` as the captured group.
   */
  predicate BearerShape(header: string, token: string)
  {
    var end := |Subject(header)|;
    token != [] && '\n' !in token && |header| >= 6 && IsBearerScheme(header[..6]) &&
    6 < end - |token| && header[end - |token|..end] == token &&
    AllSpace(header[6..end - |token|])
  }

  /**
   * What `\s+(.+)$` captures in `body`, the text after the scheme with one
   * final line feed already removed: the greedy whitespace run is tried
   * first; when it leaves nothing, it gives back its last character.
   */
  function Capture(body: string): (t: Option<string>)
    ensures t.Some? ==> var gap := |body| - |t.value|;
      t.value != [] && '\n' !in t.value && 0 < gap &&
      body[gap..] == t.value && AllSpace(body[..gap])
  {
    var k := SpaceRun(body);
    if k == 0 then None
    else if k < |body| then
      (if '\n' in body[k..] then None else Some(body[k..]))
    else if k >= 2 && body[k - 1] != '\n' then
      SpacePrefix(body, k, k - 1);
      Some(body[k - 1..])
    else None
  }

  /** A shorter prefix of a whitespace prefix is whitespace too. */
  lemma SpacePrefix(s: string, k: nat, n: nat)
    requires n <= k <= |s| && AllSpace(s[..k])
    ensures AllSpace(s[..n])
  {
    assert forall i :: 0 <= i < n ==> s[..n][i] == s[..k][i];
  }

  /** `preg_match('/^Bearer\s+(.+)$/i', $header, $m)`: `Some($m[1])` on a match. */
  function BearerToken(header: string): (t: Option<string>)
    ensures t.Some? ==> BearerShape(header, t.value)
  {
    if |header| < 6 || !IsBearerScheme(header[..6]) then None
    else
      var body := Subject(header[6..]);
      var t := Capture(body);
      if t.Some? then
        ShapeOfCapture(header, body, t.value);
        t
      else t
  }

  lemma ShapeOfCapture(header: string, body: string, token: string)
    requires |header| >= 6 && IsBearerScheme(header[..6])
    requires body == Subject(header[6..])
    requires var gap := |body| - |token|;
      token != [] && '\n' !in token && 0 < gap && body[gap..] == token && AllSpace(body[..gap])
    ensures BearerShape(header, token)
  {
    var end := |Subject(header)|;
    var gap := |body| - |token|;
    assert Subject(header) == header[..6] + body;
    assert header[..end] == Subject(header);
    assert end == 6 + |body|;
    assert header[6..end] == body;
    assert header[end - |token|..end] == body[gap..];
    assert header[6..end - |token|] == body[..gap];
  }

  lemma {:induction false} SpaceRunAfterSpace(gap: string, rest: string)
    requires AllSpace(gap)
    ensures SpaceRun(gap + rest) == |gap| + SpaceRun(rest)
  {
    if gap != [] {
      assert (gap + rest)[0] == gap[0] && IsSpace(gap[0]);
      assert (gap + rest)[1..] == gap[1..] + rest;
      assert forall i :: 0 <= i < |gap| - 1 ==> gap[1..][i] == gap[i + 1];
      SpaceRunAfterSpace(gap[1..], rest);
    } else {
      assert gap + rest == rest;
    }
  }

  /** The capture on `gap + token`: some capture always; `token` itself when it starts with a non-space. */
  lemma CaptureOfGapAndToken(gap: string, token: string)
    requires gap != [] && AllSpace(gap)
    requires token != [] && '\n' !in token
    ensures Capture(gap + token).Some?
    ensures !IsSpace(token[0]) ==> Capture(gap + token) == Some(token)
  {
    var body := gap + token;
    SpaceRunAfterSpace(gap, token);
    var k := SpaceRun(body);
    var j := SpaceRun(token);
    if k < |body| {
      assert body[k..] == token[j..];
    } else {
      assert body[k - 1] == token[|token| - 1];
    }
  }

  /**
   * Every header of the pattern's shape matches; when the token does not
   * itself start with whitespace, the captured group is exactly the token.
   * With the postcondition of BearerToken this makes the match an
   * if-and-only-if against the pattern's language.
   */
  lemma BearerHeaderMatches(scheme: string, gap: string, token: string, finalNewline: bool)
    requires IsBearerScheme(scheme) && gap != [] && AllSpace(gap)
    requires token != [] && '\n' !in token
    ensures var header := scheme + gap + token + (if finalNewline then "\n" else "");
      BearerToken(header).Some? &&
      (!IsSpace(token[0]) ==> BearerToken(header) == Some(token))
  {
    var header := scheme + gap + token + (if finalNewline then "\n" else "");
    assert header[..6] == scheme;
    assert header[6..] == (gap + token) + (if finalNewline then "\n" else "");
    assert Subject(header[6..]) == gap + token;
    CaptureOfGapAndToken(gap, token);
  }

  /** PHP's `empty()` on a string: true for "" and for "0". */
  predicate PhpEmpty(s: string)
  {
    s == "" || s == "0"
  }

  /** `isAuthenticated($request)`. */
  function IsAuthenticated(settings: Settings, req: Request): (ok: bool)
    ensures PhpEmpty(StoredKey(settings)) ==> !ok
    ensures BearerToken(HeaderLine(req, "Authorization")).Some? ==>
      (ok <==> !PhpEmpty(StoredKey(settings)) &&
               BearerToken(HeaderLine(req, "Authorization")).value == StoredKey(settings))
    ensures BearerToken(HeaderLine(req, "Authorization")).None? ==>
      (ok <==> !PhpEmpty(StoredKey(settings)) &&
               "api_key" in req.query && req.query["api_key"] == StoredKey(settings))
  {
    var storedKey := StoredKey(settings);
    if PhpEmpty(storedKey) then false
    else match BearerToken(HeaderLine(req, "Authorization"))
      case Some(token) => token == storedKey
      case None => if "api_key" in req.query then req.query["api_key"] == storedKey else false
  }

  /** A matching Authorization header decides alone: the query string is never consulted. */
  lemma BearerOverridesQuery(settings: Settings, r1: Request, r2: Request)
    requires HeaderLine(r1, "Authorization") == HeaderLine(r2, "Authorization")
    requires BearerToken(HeaderLine(r1, "Authorization")).Some?
    ensures IsAuthenticated(settings, r1) == IsAuthenticated(settings, r2)
  {
  }

  /**
   * "Authorization: Bearer <key>" with the stored key (written in any letter
   * case and followed by any whitespace) authenticates whatever the query
   * string says, provided the key is not PHP-empty and has the shape a
   * token can have.
   */
  lemma BearerKeyAccepted(settings: Settings, req: Request, scheme: string, gap: string)
    requires IsBearerScheme(scheme) && gap != [] && AllSpace(gap)
    requires var key := StoredKey(settings);
      !PhpEmpty(key) && !IsSpace(key[0]) && '\n' !in key
    requires HeaderLine(req, "Authorization") == scheme + gap + StoredKey(settings)
    ensures IsAuthenticated(settings, req)
  {
    var key := StoredKey(settings);
    BearerHeaderMatches(scheme, gap, key, false);
    assert scheme + gap + key + "" == scheme + gap + key;
  }

  /** A non-matching header and no api_key parameter: rejected, whatever the key. */
  lemma NoCredentialRejects(settings: Settings, req: Request)
    requires BearerToken(HeaderLine(req, "Authorization")).None?
    requires "api_key" !in req.query
    ensures !IsAuthenticated(settings, req)
  {
  }
}
