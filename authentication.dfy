/**
 * The WhatsApp bot's one-time-password sign-in. Every piece of per-phone state
 * lives in a key-value cache with expiry: the pending code (`otp`), the number
 * of wrong guesses (`attempts`), the lock-out flag (`rate_limit`) and the
 * 24-hour session (`session`). Time is an explicit integer `now` in seconds.
 */
module Authentication {
  import opened Wrappers
  import Text
  import opened Records
  import opened Commands

  const OTP_EXPIRY_MINUTES: int := 10
  const MAX_OTP_ATTEMPTS: int := 3
  const RATE_LIMIT_MINUTES: int := 5
  const CACHE_PREFIX: string := "whatsapp_bot"
  const SESSION_SECONDS: int := 24 * 60 * 60

  const OTP: string := "otp"
  const ATTEMPTS: string := "attempts"
  const RATE_LIMIT: string := "rate_limit"
  const SESSION: string := "session"

  // ---------------------------------------------------------------------------
  // Phone numbers and cache keys

  /** `_normalize_phone_number`: keep the digits; a 10-digit number gets "91", a leading 0 becomes "91". */
  function NormalizePhone(phone: string): (r: string)
    ensures Text.AllDigits(r)
    ensures |r| <= |Text.Digits(phone)| + 2
  {
    var d := Text.Digits(phone);
    if |d| == 10 then "91" + d
    else if Text.StartsWith(d, "0") then "91" + d[1..]
    else d
  }

  lemma NormalizeTenDigits(phone: string)
    requires |Text.Digits(phone)| == 10
    ensures NormalizePhone(phone) == "91" + Text.Digits(phone)
    ensures |NormalizePhone(phone)| == 12
  {
  }

  lemma NormalizeTrunkZero(phone: string)
    requires var d := Text.Digits(phone); |d| != 10 && |d| > 0 && d[0] == '0'
    ensures NormalizePhone(phone) == "91" + Text.Digits(phone)[1..]
  {
  }

  lemma NormalizeOtherwiseDigits(phone: string)
    requires var d := Text.Digits(phone); |d| != 10 && (d == [] || d[0] != '0')
    ensures NormalizePhone(phone) == Text.Digits(phone)
  {
  }

  /** Punctuation and spaces never matter: only the digit string is looked at. */
  lemma NormalizeSeesOnlyDigits(phone: string)
    ensures NormalizePhone(phone) == NormalizePhone(Text.Digits(phone))
  {
  }

  /** For a number whose digit string has 10 digits, normalising again changes nothing. */
  lemma NormalizeIdempotentOnTen(phone: string)
    requires |Text.Digits(phone)| == 10
    ensures NormalizePhone(NormalizePhone(phone)) == NormalizePhone(phone)
  {
    var r := NormalizePhone(phone);
    assert |r| == 12;
    assert r[0] == '9';
  }

  /**
   * Normalisation is not idempotent in general: a 9-digit number with a trunk 0
   * (such as 012345678) becomes a 10-digit one, which a second pass prefixes again.
   */
  lemma NormalizeNotIdempotent(phone: string)
    requires Text.AllDigits(phone) && |phone| == 9 && phone[0] == '0'
    ensures |NormalizePhone(phone)| == 10
    ensures NormalizePhone(NormalizePhone(phone)) == "91" + NormalizePhone(phone)
    ensures NormalizePhone(NormalizePhone(phone)) != NormalizePhone(phone)
  {
    NormalizeDigitString(phone);
    NormalizeDigitString(NormalizePhone(phone));
  }

  lemma NormalizeDigitString(d: string)
    requires Text.AllDigits(d)
    ensures NormalizePhone(d) == if |d| == 10 then "91" + d else if Text.StartsWith(d, "0") then "91" + d[1..] else d
  {
  }

  /** `_get_cache_key` */
  function CacheKey(phone: string, kind: string): string {
    CACHE_PREFIX + ":" + kind + ":" + phone
  }

  predicate NoColon(s: string) {
    forall i :: 0 <= i < |s| ==> s[i] != ':'
  }

  /** The text before the first ':' (all of it when there is none). */
  function BeforeColon(s: string): (r: string)
    ensures |r| <= |s| && r == s[..|r|] && NoColon(r)
  {
    if s == [] || s[0] == ':' then [] else [s[0]] + BeforeColon(s[1..])
  }

  /** The kind segment of a bot cache key; "" for keys that are not the bot's. */
  function KindOf(key: string): string {
    var p := CACHE_PREFIX + ":";
    if Text.StartsWith(key, p) then BeforeColon(key[|p|..]) else ""
  }

  lemma {:induction false} BeforeColonOf(kind: string, rest: string)
    requires NoColon(kind)
    ensures BeforeColon(kind + ":" + rest) == kind
  {
    if kind != [] {
      assert (kind + ":" + rest)[1..] == kind[1..] + ":" + rest;
      BeforeColonOf(kind[1..], rest);
    } else {
      assert (kind + ":" + rest)[0] == ':';
    }
  }

  /** Every key the bot writes can be read back to its kind. */
  lemma KindOfKey(phone: string, kind: string)
    requires NoColon(kind)
    ensures KindOf(CacheKey(phone, kind)) == kind
  {
    var p := CACHE_PREFIX + ":";
    var k := CacheKey(phone, kind);
    assert k == p + (kind + ":" + phone);
    assert k[..|p|] == p;
    assert k[|p|..] == kind + ":" + phone;
    BeforeColonOf(kind, phone);
  }

  /** Distinct (phone, kind) pairs never share a cache key. */
  lemma CacheKeyInjective(p1: string, k1: string, p2: string, k2: string)
    requires NoColon(k1) && NoColon(k2)
    requires CacheKey(p1, k1) == CacheKey(p2, k2)
    ensures p1 == p2 && k1 == k2
  {
    KindOfKey(p1, k1);
    KindOfKey(p2, k2);
    var n := |CACHE_PREFIX + ":" + k1 + ":"|;
    assert CacheKey(p1, k1)[n..] == p1;
    assert CacheKey(p2, k2)[n..] == p2;
  }

  lemma KindsHaveNoColon()
    ensures NoColon(OTP) && NoColon(ATTEMPTS) && NoColon(RATE_LIMIT) && NoColon(SESSION)
  {
  }

  /** The four keys of one phone are pairwise distinct. */
  lemma PhoneKeysDistinct(p: string)
    ensures CacheKey(p, OTP) != CacheKey(p, ATTEMPTS) && CacheKey(p, OTP) != CacheKey(p, RATE_LIMIT)
    ensures CacheKey(p, OTP) != CacheKey(p, SESSION) && CacheKey(p, ATTEMPTS) != CacheKey(p, RATE_LIMIT)
    ensures CacheKey(p, ATTEMPTS) != CacheKey(p, SESSION) && CacheKey(p, RATE_LIMIT) != CacheKey(p, SESSION)
  {
    KindOfKey(p, OTP);
    KindOfKey(p, ATTEMPTS);
    KindOfKey(p, RATE_LIMIT);
    KindOfKey(p, SESSION);
  }

  // ---------------------------------------------------------------------------
  // The cache

  datatype CacheValue =
    | CodeValue(code: string)
    | CountValue(n: int)
    | FlagValue(b: bool)
    | SessionValue(phone: string, authenticatedAt: int, expiresAt: int)

  datatype Entry = Entry(value: CacheValue, expiresAt: int)

  type Cache = map<string, Entry>

  /** `cache.get(key)`: the value of an entry that has not yet expired. */
  function Lookup(c: Cache, key: string, now: int): (r: Option<CacheValue>)
    ensures r.Some? <==> key in c && now < c[key].expiresAt
    ensures r.Some? ==> r.value == c[key].value
  {
    if key in c && now < c[key].expiresAt then Some(c[key].value) else None
  }

  /** `cache.set(key, value, timeout)` */
  function Store(c: Cache, key: string, v: CacheValue, now: int, timeout: int): (r: Cache)
    ensures key in r && r[key] == Entry(v, now + timeout)
    ensures forall k :: k != key ==> (k in r <==> k in c) && (k in c ==> r[k] == c[k])
  {
    c[key := Entry(v, now + timeout)]
  }

  /** `bool(value)` of a cached value. */
  predicate Truthy(v: CacheValue) {
    match v
    case CodeValue(s) => s != ""
    case CountValue(n) => n != 0
    case FlagValue(b) => b
    case SessionValue(_, _, _) => true
  }

  /** `cache.get(rate_limit_key)` is truthy: the phone is locked out. */
  predicate RateLimited(c: Cache, p: string, now: int) {
    var v := Lookup(c, CacheKey(p, RATE_LIMIT), now);
    v.Some? && Truthy(v.value)
  }

  /** `cache.get(otp_key)` */
  function StoredCode(c: Cache, p: string, now: int): Option<string> {
    match Lookup(c, CacheKey(p, OTP), now)
    case Some(CodeValue(s)) => Some(s)
    case _ => None
  }

  /** `cache.get(attempts_key, 0)` */
  function AttemptsOf(c: Cache, p: string, now: int): int {
    match Lookup(c, CacheKey(p, ATTEMPTS), now)
    case Some(CountValue(n)) => n
    case _ => 0
  }

  /** What each kind of bot key may hold. */
  predicate Fits(kind: string, e: Entry) {
    if kind == OTP then e.value.CodeValue? && |e.value.code| == 6 && Text.AllDigits(e.value.code)
    else if kind == ATTEMPTS then e.value.CountValue? && 0 <= e.value.n <= MAX_OTP_ATTEMPTS
    else if kind == RATE_LIMIT then e.value == FlagValue(true)
    else if kind == SESSION then
      e.value.SessionValue? && e.value.expiresAt == e.value.authenticatedAt + SESSION_SECONDS &&
      e.expiresAt == e.value.expiresAt
    else true
  }

  /** What an attempts, rate-limit or session entry must hold. */
  lemma FitsByKind(e: Entry)
    ensures Fits(ATTEMPTS, e) <==> e.value.CountValue? && 0 <= e.value.n <= MAX_OTP_ATTEMPTS
    ensures Fits(RATE_LIMIT, e) <==> e.value == FlagValue(true)
    ensures Fits(SESSION, e) <==>
            e.value.SessionValue? && e.value.expiresAt == e.value.authenticatedAt + SESSION_SECONDS &&
            e.expiresAt == e.value.expiresAt
  {
    assert OTP[0] == 'o' && ATTEMPTS[0] == 'a' && RATE_LIMIT[0] == 'r' && SESSION[0] == 's';
  }

  /** Every bot key in the cache holds a value of its kind. */
  predicate WellKinded(c: Cache) {
    forall k :: k in c ==> Fits(KindOf(k), c[k])
  }

  lemma StoreWellKinded(c: Cache, p: string, kind: string, v: CacheValue, now: int, timeout: int)
    requires WellKinded(c) && NoColon(kind) && Fits(kind, Entry(v, now + timeout))
    ensures WellKinded(Store(c, CacheKey(p, kind), v, now, timeout))
  {
    KindOfKey(p, kind);
  }

  // ---------------------------------------------------------------------------
  // The operations, as functions of the cache before the call

  /** The cache after `generate_otp(phone)` with random draw `code`. */
  function GenerateStore(c: Cache, phone: string, now: int, code: nat): (r: Cache)
    ensures var p := NormalizePhone(phone);
      RateLimited(c, p, now) ==> r == c
    ensures var p := NormalizePhone(phone);
      !RateLimited(c, p, now) ==>
        (forall t :: now <= t < now + OTP_EXPIRY_MINUTES * 60 ==>
           StoredCode(r, p, t) == Some(Text.NatToString(code)) && AttemptsOf(r, p, t) == 0)
    ensures var p := NormalizePhone(phone);
      forall k :: k != CacheKey(p, OTP) && k != CacheKey(p, ATTEMPTS) ==>
        (k in r <==> k in c) && (k in c ==> r[k] == c[k])
  {
    var p := NormalizePhone(phone);
    if RateLimited(c, p, now) then c
    else
      PhoneKeysDistinct(p);
      var c1 := Store(c, CacheKey(p, OTP), CodeValue(Text.NatToString(code)), now, OTP_EXPIRY_MINUTES * 60);
      Store(c1, CacheKey(p, ATTEMPTS), CountValue(0), now, OTP_EXPIRY_MINUTES * 60)
  }

  /** What `generate_otp` returns: the code once the SMS went out, None when locked out or the send raised. */
  function GenerateReply(c: Cache, phone: string, now: int, code: nat, smsSent: bool): (r: Option<string>)
    ensures r.Some? <==> !RateLimited(c, NormalizePhone(phone), now) && smsSent
    ensures r.Some? ==> r.value == Text.NatToString(code)
  {
    if RateLimited(c, NormalizePhone(phone), now) || !smsSent then None
    else Some(Text.NatToString(code))
  }

  /** The cache entry `_create_auth_session` writes. */
  function NewSession(p: string, now: int): CacheValue {
    SessionValue(p, now, now + SESSION_SECONDS)
  }

  /** The cache after `verify_otp(phone, otp)`. */
  function VerifyStore(c: Cache, phone: string, otp: string, now: int): Cache {
    var p := NormalizePhone(phone);
    var stored := StoredCode(c, p, now);
    var attempts := AttemptsOf(c, p, now);
    if stored.None? || stored.value == "" then c
    else if attempts >= MAX_OTP_ATTEMPTS then
      Store(c, CacheKey(p, RATE_LIMIT), FlagValue(true), now, RATE_LIMIT_MINUTES * 60)
        - {CacheKey(p, OTP)} - {CacheKey(p, ATTEMPTS)}
    else if stored.value == otp then
      Store(c - {CacheKey(p, OTP)} - {CacheKey(p, ATTEMPTS)}, CacheKey(p, SESSION), NewSession(p, now), now, SESSION_SECONDS)
    else
      Store(c, CacheKey(p, ATTEMPTS), CountValue(attempts + 1), now, OTP_EXPIRY_MINUTES * 60)
  }

  /** The cache after `verify_otp`, case by case. */
  lemma VerifyStoreCases(c: Cache, phone: string, otp: string, now: int, p: string, stored: Option<string>, attempts: int)
    requires p == NormalizePhone(phone) && stored == StoredCode(c, p, now) && attempts == AttemptsOf(c, p, now)
    ensures stored.None? || stored.value == "" ==> VerifyStore(c, phone, otp, now) == c
    ensures stored.Some? && stored.value != "" && attempts >= MAX_OTP_ATTEMPTS ==>
              VerifyStore(c, phone, otp, now) ==
                Store(c, CacheKey(p, RATE_LIMIT), FlagValue(true), now, RATE_LIMIT_MINUTES * 60)
                  - {CacheKey(p, OTP)} - {CacheKey(p, ATTEMPTS)}
    ensures stored.Some? && stored.value != "" && attempts < MAX_OTP_ATTEMPTS && stored.value == otp ==>
              VerifyStore(c, phone, otp, now) ==
                Store(c - {CacheKey(p, OTP)} - {CacheKey(p, ATTEMPTS)}, CacheKey(p, SESSION), NewSession(p, now), now, SESSION_SECONDS)
    ensures stored.Some? && stored.value != "" && attempts < MAX_OTP_ATTEMPTS && stored.value != otp ==>
              VerifyStore(c, phone, otp, now) ==
                Store(c, CacheKey(p, ATTEMPTS), CountValue(attempts + 1), now, OTP_EXPIRY_MINUTES * 60)
  {
  }

  /** `verify_otp` keeps every bot key holding a value of its kind; in particular attempts stay within 0..3. */
  lemma VerifyKeepsWellKinded(c: Cache, phone: string, otp: string, now: int)
    requires WellKinded(c)
    ensures WellKinded(VerifyStore(c, phone, otp, now))
  {
    var p := NormalizePhone(phone);
    var stored := StoredCode(c, p, now);
    var attempts := AttemptsOf(c, p, now);
    VerifyStoreCases(c, phone, otp, now, p, stored, attempts);
    KindsHaveNoColon();
    if stored.None? || stored.value == "" {
    } else if attempts >= MAX_OTP_ATTEMPTS {
      FitsByKind(Entry(FlagValue(true), now + RATE_LIMIT_MINUTES * 60));
      StoreWellKinded(c, p, RATE_LIMIT, FlagValue(true), now, RATE_LIMIT_MINUTES * 60);
    } else if stored.value == otp {
      FitsByKind(Entry(NewSession(p, now), now + SESSION_SECONDS));
      StoreWellKinded(c - {CacheKey(p, OTP)} - {CacheKey(p, ATTEMPTS)}, p, SESSION, NewSession(p, now), now, SESSION_SECONDS);
    } else {
      var key := CacheKey(p, ATTEMPTS);
      assert 0 <= attempts by {
        if key in c && now < c[key].expiresAt {
          KindOfKey(p, ATTEMPTS);
          FitsByKind(c[key]);
        }
      }
      FitsByKind(Entry(CountValue(attempts + 1), now + OTP_EXPIRY_MINUTES * 60));
      StoreWellKinded(c, p, ATTEMPTS, CountValue(attempts + 1), now, OTP_EXPIRY_MINUTES * 60);
    }
  }

  /** What `verify_otp` returns. */
  function VerifyReply(c: Cache, phone: string, otp: string, now: int): (r: bool)
    ensures r <==> var p := NormalizePhone(phone);
      StoredCode(c, p, now) == Some(otp) && otp != "" && AttemptsOf(c, p, now) < MAX_OTP_ATTEMPTS
  {
    var p := NormalizePhone(phone);
    var stored := StoredCode(c, p, now);
    if stored.None? || stored.value == "" then false
    else if AttemptsOf(c, p, now) >= MAX_OTP_ATTEMPTS then false
    else stored.value == otp
  }

  /** `is_authenticated`: a live session whose `expires_at` has not passed. */
  function AuthReply(c: Cache, phone: string, now: int): bool {
    match Lookup(c, CacheKey(NormalizePhone(phone), SESSION), now)
    case Some(SessionValue(_, _, exp)) => !(now > exp)
    case _ => false
  }

  /** The cache after `is_authenticated`: a session past its `expires_at` is deleted. */
  function AuthStore(c: Cache, phone: string, now: int): Cache {
    var key := CacheKey(NormalizePhone(phone), SESSION);
    match Lookup(c, key, now)
    case Some(SessionValue(_, _, exp)) => if now > exp then c - {key} else c
    case _ => c
  }

  /** The cache after `logout`. */
  function LogoutStore(c: Cache, phone: string): (r: Cache)
    ensures CacheKey(NormalizePhone(phone), SESSION) !in r
    ensures forall k :: k != CacheKey(NormalizePhone(phone), SESSION) ==> (k in r <==> k in c) && (k in c ==> r[k] == c[k])
  {
    c - {CacheKey(NormalizePhone(phone), SESSION)}
  }

  // ---------------------------------------------------------------------------
  // Properties of the operations

  /** A code in [100000, 999999] is rendered as six digits. */
  lemma CodeHasSixDigits(code: nat)
    requires 100000 <= code <= 999999
    ensures |Text.NatToString(code)| == 6 && Text.AllDigits(Text.NatToString(code))
  {
    assert Text.Pow10(5) == 100000 by {
      assert Text.Pow10(1) == 10;
      assert Text.Pow10(2) == 100;
      assert Text.Pow10(3) == 1000;
      assert Text.Pow10(4) == 10000;
    }
    assert Text.Pow10(6) == 1000000;
    Text.NatToStringLength(code, 6);
  }

  /** While a phone is locked out, `generate_otp` returns None and writes nothing. */
  lemma RateLimitedGenerateIsNoop(c: Cache, phone: string, now: int, code: nat, smsSent: bool)
    requires RateLimited(c, NormalizePhone(phone), now)
    ensures GenerateStore(c, phone, now, code) == c
    ensures GenerateReply(c, phone, now, code, smsSent).None?
  {
  }

  /** The challenge is written before the SMS is sent, so a failed send leaves it live. */
  lemma FailedSendKeepsChallenge(c: Cache, phone: string, now: int, code: nat)
    requires !RateLimited(c, NormalizePhone(phone), now)
    ensures GenerateReply(c, phone, now, code, false).None?
    ensures StoredCode(GenerateStore(c, phone, now, code), NormalizePhone(phone), now) == Some(Text.NatToString(code))
  {
  }

  /** With no live code, `verify_otp` returns False and writes nothing. */
  lemma VerifyWithoutCode(c: Cache, phone: string, otp: string, now: int)
    requires StoredCode(c, NormalizePhone(phone), now).None?
    ensures VerifyStore(c, phone, otp, now) == c
    ensures !VerifyReply(c, phone, otp, now)
  {
  }

  /**
   * A pending challenge for phone `p`: the code entry with expiry `exp`, and an
   * attempt counter that lives at least as long.
   */
  predicate Pending(c: Cache, p: string, code: string, exp: int, n: int) {
    CacheKey(p, OTP) in c && c[CacheKey(p, OTP)] == Entry(CodeValue(code), exp) &&
    CacheKey(p, ATTEMPTS) in c && c[CacheKey(p, ATTEMPTS)].value == CountValue(n) &&
    c[CacheKey(p, ATTEMPTS)].expiresAt >= exp
  }

  /** `generate_otp` opens a challenge with no wrong guesses, live for ten minutes. */
  lemma GenerateOpensChallenge(c: Cache, phone: string, now: int, code: nat)
    requires !RateLimited(c, NormalizePhone(phone), now)
    ensures Pending(GenerateStore(c, phone, now, code), NormalizePhone(phone), Text.NatToString(code),
                    now + OTP_EXPIRY_MINUTES * 60, 0)
  {
    PhoneKeysDistinct(NormalizePhone(phone));
  }

  /** A wrong guess on a live challenge with fewer than 3 misses counts one more miss. */
  lemma WrongGuess(c: Cache, phone: string, guess: string, now: int, code: string, exp: int, n: int)
    requires Pending(c, NormalizePhone(phone), code, exp, n)
    requires now < exp <= now + OTP_EXPIRY_MINUTES * 60 && 0 <= n < MAX_OTP_ATTEMPTS
    requires code != "" && guess != code
    ensures !VerifyReply(c, phone, guess, now)
    ensures Pending(VerifyStore(c, phone, guess, now), NormalizePhone(phone), code, exp, n + 1)
  {
    PhoneKeysDistinct(NormalizePhone(phone));
  }

  /**
   * The right code on a live challenge with fewer than 3 misses signs the phone in for 24 hours:
   * the code and the miss count are deleted, the session is stored, and no other key changes.
   */
  lemma RightGuess(c: Cache, phone: string, now: int, code: string, exp: int, n: int)
    requires Pending(c, NormalizePhone(phone), code, exp, n)
    requires now < exp && 0 <= n < MAX_OTP_ATTEMPTS && code != ""
    ensures VerifyReply(c, phone, code, now)
    ensures var c' := VerifyStore(c, phone, code, now);
      StoredCode(c', NormalizePhone(phone), now).None? &&
      forall t :: now <= t < now + SESSION_SECONDS ==> AuthReply(c', phone, t)
    ensures var p := NormalizePhone(phone);
            var c' := VerifyStore(c, phone, code, now);
            CacheKey(p, OTP) !in c' && CacheKey(p, ATTEMPTS) !in c' &&
            CacheKey(p, SESSION) in c' && c'[CacheKey(p, SESSION)] == Entry(NewSession(p, now), now + SESSION_SECONDS) &&
            forall k :: k !in {CacheKey(p, OTP), CacheKey(p, ATTEMPTS), CacheKey(p, SESSION)} ==>
              (k in c' <==> k in c) && (k in c ==> c'[k] == c[k])
  {
    PhoneKeysDistinct(NormalizePhone(phone));
  }

  /** After 3 misses even the right code is refused: the challenge is dropped and the phone locked for 5 minutes. */
  lemma LockOut(c: Cache, phone: string, guess: string, now: int, code: string, exp: int)
    requires Pending(c, NormalizePhone(phone), code, exp, MAX_OTP_ATTEMPTS)
    requires now < exp && code != ""
    ensures !VerifyReply(c, phone, guess, now)
    ensures var c' := VerifyStore(c, phone, guess, now);
      StoredCode(c', NormalizePhone(phone), now).None? &&
      forall t :: now <= t < now + RATE_LIMIT_MINUTES * 60 ==> RateLimited(c', NormalizePhone(phone), t)
  {
    PhoneKeysDistinct(NormalizePhone(phone));
  }

  /** The cache after a sequence of `verify_otp` calls, the i-th with `guesses[i]` at `times[i]`. */
  function VerifyAll(c: Cache, phone: string, guesses: seq<string>, times: seq<int>): Cache
    requires |guesses| == |times|
    decreases |guesses|
  {
    if guesses == [] then c
    else VerifyAll(VerifyStore(c, phone, guesses[0], times[0]), phone, guesses[1..], times[1..])
  }

  lemma {:induction false} WrongGuesses(c: Cache, phone: string, guesses: seq<string>, times: seq<int>,
                                        code: string, exp: int, n: int, total: int)
    requires |guesses| == |times| && 0 <= n && total == n + |guesses| <= MAX_OTP_ATTEMPTS
    requires Pending(c, NormalizePhone(phone), code, exp, n) && code != ""
    requires forall i :: 0 <= i < |times| ==> times[i] < exp <= times[i] + OTP_EXPIRY_MINUTES * 60
    requires forall i :: 0 <= i < |guesses| ==> guesses[i] != code
    ensures Pending(VerifyAll(c, phone, guesses, times), NormalizePhone(phone), code, exp, total)
  {
    if guesses != [] {
      WrongGuess(c, phone, guesses[0], times[0], code, exp, n);
      WrongGuesses(VerifyStore(c, phone, guesses[0], times[0]), phone, guesses[1..], times[1..], code, exp, n + 1, total);
    }
  }

  /** A correct code is accepted on the first, second or third try within the ten minutes. */
  lemma AcceptedWithinThreeTries(c: Cache, phone: string, t0: int, code: nat,
                                 wrong: seq<string>, times: seq<int>, t: int)
    requires !RateLimited(c, NormalizePhone(phone), t0)
    requires |wrong| == |times| && |wrong| < MAX_OTP_ATTEMPTS
    requires forall i :: 0 <= i < |times| ==> t0 <= times[i] < t0 + OTP_EXPIRY_MINUTES * 60
    requires forall i :: 0 <= i < |wrong| ==> wrong[i] != Text.NatToString(code)
    requires t0 <= t < t0 + OTP_EXPIRY_MINUTES * 60
    ensures VerifyReply(VerifyAll(GenerateStore(c, phone, t0, code), phone, wrong, times), phone, Text.NatToString(code), t)
  {
    var s := Text.NatToString(code);
    var exp := t0 + OTP_EXPIRY_MINUTES * 60;
    var c0 := GenerateStore(c, phone, t0, code);
    GenerateOpensChallenge(c, phone, t0, code);
    WrongGuesses(c0, phone, wrong, times, s, exp, 0, |wrong|);
    var cn := VerifyAll(c0, phone, wrong, times);
    RightGuess(cn, phone, t, s, exp, |wrong|);
  }

  /** After three wrong tries the fourth is refused even with the correct code, and the phone is locked. */
  lemma RejectedOnFourthTry(c: Cache, phone: string, t0: int, code: nat,
                            wrong: seq<string>, times: seq<int>, t: int)
    requires !RateLimited(c, NormalizePhone(phone), t0)
    requires |wrong| == |times| == MAX_OTP_ATTEMPTS
    requires forall i :: 0 <= i < |times| ==> t0 <= times[i] < t0 + OTP_EXPIRY_MINUTES * 60
    requires forall i :: 0 <= i < |wrong| ==> wrong[i] != Text.NatToString(code)
    requires t0 <= t < t0 + OTP_EXPIRY_MINUTES * 60
    ensures var c' := VerifyAll(GenerateStore(c, phone, t0, code), phone, wrong, times);
      !VerifyReply(c', phone, Text.NatToString(code), t) &&
      RateLimited(VerifyStore(c', phone, Text.NatToString(code), t), NormalizePhone(phone), t)
  {
    var s := Text.NatToString(code);
    var exp := t0 + OTP_EXPIRY_MINUTES * 60;
    var c0 := GenerateStore(c, phone, t0, code);
    GenerateOpensChallenge(c, phone, t0, code);
    WrongGuesses(c0, phone, wrong, times, s, exp, 0, MAX_OTP_ATTEMPTS);
    var c3 := VerifyAll(c0, phone, wrong, times);
    LockOut(c3, phone, s, t, s, exp);
  }

  /** A session is honoured until its 24 hours are up and not after. */
  lemma SessionLifetime(c: Cache, phone: string, t0: int, t: int)
    ensures var key := CacheKey(NormalizePhone(phone), SESSION);
      var c' := Store(c, key, NewSession(NormalizePhone(phone), t0), t0, SESSION_SECONDS);
      AuthReply(c', phone, t) <==> t < t0 + SESSION_SECONDS
  {
  }

  /** Because the cache timeout equals `expires_at`, the lazy-expiry delete in `is_authenticated` never fires. */
  lemma LazyExpiryNeverFires(c: Cache, phone: string, now: int)
    requires WellKinded(c)
    ensures AuthStore(c, phone, now) == c
    ensures AuthReply(c, phone, now) <==> Lookup(c, CacheKey(NormalizePhone(phone), SESSION), now).Some?
  {
    var key := CacheKey(NormalizePhone(phone), SESSION);
    if key in c {
      var e := c[key];
      assert Fits(SESSION, e) by {
        KindOfKey(NormalizePhone(phone), SESSION);
        assert Fits(KindOf(key), e);
      }
      FitsByKind(e);
    }
  }

  /** After `logout` the phone is not signed in. */
  lemma LogoutSignsOut(c: Cache, phone: string, now: int)
    ensures !AuthReply(LogoutStore(c, phone), phone, now)
  {
  }

  // ---------------------------------------------------------------------------
  // Who the phone belongs to

  datatype Identity = PatientUser(patient: Patient) | StaffMember(user: StaffUser) | Nobody
  {
    function Kind(): UserKind {
      match this
      case PatientUser(_) => PATIENT
      case StaffMember(_) => HOSPITAL_STAFF
      case Nobody => UNKNOWN
    }
  }

  /** `phone_number__icontains=normalized[-10:]` */
  predicate PhoneMatches(field: Option<string>, phone: string) {
    IContains(field, Text.TakeLast(NormalizePhone(phone), 10))
  }

  /** `.filter(...).first()` on a table; a table that raises counts as no match. */
  function FirstPatient(t: Table<Patient>, phone: string): (r: Option<Patient>)
    ensures r.Some? ==> t.Rows? && r.value in t.rows && PhoneMatches(r.value.phone, phone)
    ensures r.None? <==> t.Down? || forall x :: x in t.rows ==> !PhoneMatches(x.phone, phone)
  {
    if t.Down? then None else FirstWhere(t.rows, (x: Patient) => PhoneMatches(x.phone, phone))
  }

  function FirstStaff(t: Table<StaffUser>, phone: string): (r: Option<StaffUser>)
    ensures r.Some? ==> t.Rows? && r.value in t.rows && PhoneMatches(r.value.phone, phone)
    ensures r.None? <==> t.Down? || forall x :: x in t.rows ==> !PhoneMatches(x.phone, phone)
  {
    if t.Down? then None else FirstWhere(t.rows, (x: StaffUser) => PhoneMatches(x.phone, phone))
  }

  /** `identify_user_type`: patients are tried before staff. */
  function Identify(db: Db, phone: string): (r: Identity)
    ensures r.PatientUser? <==> FirstPatient(db.patients, phone).Some?
    ensures r.PatientUser? ==> r.patient == FirstPatient(db.patients, phone).value
    ensures r.StaffMember? <==> FirstPatient(db.patients, phone).None? && FirstStaff(db.users, phone).Some?
    ensures r.StaffMember? ==> r.user == FirstStaff(db.users, phone).value
  {
    var pm := FirstPatient(db.patients, phone);
    if pm.Some? then PatientUser(pm.value)
    else
      var um := FirstStaff(db.users, phone);
      if um.Some? then StaffMember(um.value) else Nobody
  }

  /** A phone matching both a patient and a staff member is identified as the patient. */
  lemma PatientsBeforeStaff(db: Db, phone: string, p: Patient, u: StaffUser)
    requires db.patients.Rows? && p in db.patients.rows && PhoneMatches(p.phone, phone)
    ensures Identify(db, phone).Kind() == PATIENT
  {
  }

  /** A failing patient query is the same as a patient table without a match. */
  lemma PatientQueryFailureIsNoMatch(db: Db, phone: string)
    ensures Identify(db.(patients := Down), phone) == Identify(db.(patients := Rows([])), phone)
  {
  }

  /** A sender with no digits matches the first patient with any phone number at all (`"" in s`). */
  lemma NoDigitsMatchesAnyPhone(phone: string, field: string)
    requires Text.Digits(phone) == ""
    ensures PhoneMatches(Some(field), phone)
  {
    assert Text.TakeLast(NormalizePhone(phone), 10) == "";
    assert Text.StartsWith(Text.Lower(field), "");
  }

  /** `get_user_context` for a signed-in phone. */
  function ContextOf(who: Identity, phone: string): (r: Option<UserContext>)
    ensures r.Some? <==> !who.Nobody?
    ensures r.Some? ==> r.value.Kind() == Some(who.Kind())
    ensures r.Some? ==> !r.value.OtherContext? && r.value.phone == phone
  {
    match who
    case PatientUser(p) => Some(PatientContext(p.externalId, p.name, phone, p.organizationId))
    case StaffMember(u) =>
      Some(StaffContext(u.id, Text.Strip(u.firstName + " " + u.lastName), phone, u.username, u.userType))
    case Nobody => None
  }

  // ---------------------------------------------------------------------------
  // The authenticator object over the shared cache

  class Authenticator {
    var store: Cache

    predicate Valid()
      reads this
    {
      WellKinded(store)
    }

    constructor(initial: Cache)
      requires WellKinded(initial)
      ensures Valid() && store == initial
    {
      store := initial;
    }

    /** `generate_otp`: `code` is the `random.randint(100000, 999999)` draw, `smsSent` whether `send_sms` returned. */
    method GenerateOtp(phone: string, now: int, code: nat, smsSent: bool) returns (r: Option<string>)
      requires Valid() && 100000 <= code <= 999999
      modifies this
      ensures Valid()
      ensures store == GenerateStore(old(store), phone, now, code)
      ensures r == GenerateReply(old(store), phone, now, code, smsSent)
    {
      var p := NormalizePhone(phone);
      if RateLimited(store, p, now) {
        return None;
      }
      var otp := Text.NatToString(code);
      CodeHasSixDigits(code);
      KindsHaveNoColon();
      StoreWellKinded(store, p, OTP, CodeValue(otp), now, OTP_EXPIRY_MINUTES * 60);
      store := Store(store, CacheKey(p, OTP), CodeValue(otp), now, OTP_EXPIRY_MINUTES * 60);
      StoreWellKinded(store, p, ATTEMPTS, CountValue(0), now, OTP_EXPIRY_MINUTES * 60);
      store := Store(store, CacheKey(p, ATTEMPTS), CountValue(0), now, OTP_EXPIRY_MINUTES * 60);
      if smsSent {
        r := Some(otp);
      } else {
        r := None;
      }
    }

    /** `verify_otp` */
    method VerifyOtp(phone: string, otp: string, now: int) returns (ok: bool)
      requires Valid()
      modifies this
      ensures Valid()
      ensures store == VerifyStore(old(store), phone, otp, now)
      ensures ok == VerifyReply(old(store), phone, otp, now)
    {
      VerifyKeepsWellKinded(store, phone, otp, now);
      var p := NormalizePhone(phone);
      var stored := StoredCode(store, p, now);
      var attempts := AttemptsOf(store, p, now);
      VerifyStoreCases(store, phone, otp, now, p, stored, attempts);
      if stored.None? || stored.value == "" {
        return false;
      }
      if attempts >= MAX_OTP_ATTEMPTS {
        store := Store(store, CacheKey(p, RATE_LIMIT), FlagValue(true), now, RATE_LIMIT_MINUTES * 60);
        store := store - {CacheKey(p, OTP)};
        store := store - {CacheKey(p, ATTEMPTS)};
        return false;
      }
      if stored.value == otp {
        store := store - {CacheKey(p, OTP)};
        store := store - {CacheKey(p, ATTEMPTS)};
        store := Store(store, CacheKey(p, SESSION), NewSession(p, now), now, SESSION_SECONDS);
        return true;
      }
      store := Store(store, CacheKey(p, ATTEMPTS), CountValue(attempts + 1), now, OTP_EXPIRY_MINUTES * 60);
      return false;
    }

    /** `_create_auth_session`, for an already normalised phone. */
    method CreateAuthSession(p: string, now: int)
      requires Valid()
      modifies this
      ensures Valid()
      ensures store == Store(old(store), CacheKey(p, SESSION), NewSession(p, now), now, SESSION_SECONDS)
    {
      KindsHaveNoColon();
      StoreWellKinded(store, p, SESSION, NewSession(p, now), now, SESSION_SECONDS);
      store := Store(store, CacheKey(p, SESSION), NewSession(p, now), now, SESSION_SECONDS);
    }

    /** `is_authenticated` */
    method IsAuthenticated(phone: string, now: int) returns (ok: bool)
      requires Valid()
      modifies this
      ensures Valid()
      ensures store == AuthStore(old(store), phone, now)
      ensures ok == AuthReply(old(store), phone, now)
    {
      var key := CacheKey(NormalizePhone(phone), SESSION);
      var session := Lookup(store, key, now);
      if session.None? || !session.value.SessionValue? {
        return false;
      }
      if now > session.value.expiresAt {
        store := store - {key};
        return false;
      }
      return true;
    }

    /** `logout` */
    method Logout(phone: string)
      requires Valid()
      modifies this
      ensures Valid()
      ensures store == LogoutStore(old(store), phone)
    {
      store := store - {CacheKey(NormalizePhone(phone), SESSION)};
    }

    /** `get_user_context`: None unless signed in; then the context of whoever the phone belongs to. */
    method GetUserContext(phone: string, now: int, db: Db) returns (r: Option<UserContext>)
      requires Valid()
      modifies this
      ensures Valid()
      ensures store == AuthStore(old(store), phone, now)
      ensures r == if AuthReply(old(store), phone, now) then ContextOf(Identify(db, phone), phone) else None
    {
      var ok := IsAuthenticated(phone, now);
      if !ok {
        return None;
      }
      r := ContextOf(Identify(db, phone), phone);
    }
  }
}
