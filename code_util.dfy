/** The verification code store: codes map to a payload and an expiry
    instant. Instants are integers counting seconds; the current instant,
    which the Java code reads from the clock, is a parameter. */
module CodeUtil {
  import opened Common

  /** A stored payload and the instant it expires. */
  datatype CodeEntry<T> = CodeEntry(payload: T, expiresAt: int)

  /** `plusMinutes`. */
  function PlusMinutes(instant: int, minutes: int): int
  {
    instant + 60 * minutes
  }

  /** An entry is expired once its expiry is before now. */
  predicate Live<T>(entry: CodeEntry<T>, now: int)
  {
    !(entry.expiresAt < now)
  }

  /** What `get` returns for a code at `now`. */
  function Fetch<T>(codes: map<string, CodeEntry<T>>, code: string, now: int): (r: Result<T>)
    ensures r.Ok? <==> code in codes && Live(codes[code], now)
    ensures r.Ok? ==> r.value == codes[code].payload
    ensures r.Err? ==> r.code == "code-e-01"
  {
    if code !in codes || !Live(codes[code], now) then Err("code-e-01")
    else Ok(codes[code].payload)
  }

  /** The store after `get`: a missing or expired code is removed, a live
      one kept. */
  function AfterFetch<T>(codes: map<string, CodeEntry<T>>, code: string, now: int): (r: map<string, CodeEntry<T>>)
    ensures Fetch(codes, code, now).Ok? ==> r == codes
    ensures Fetch(codes, code, now).Err? ==> r == codes - {code}
  {
    if code !in codes || !Live(codes[code], now) then codes - {code} else codes
  }

  /** A saved code reads back its payload until its expiry has passed, and
      fails afterwards; saving leaves every other code as it was. */
  lemma SaveThenFetch<T>(codes: map<string, CodeEntry<T>>, code: string, payload: T, ttlInMinutes: int,
                         savedAt: int, now: int, other: string)
    requires other != code
    ensures var stored := codes[code := CodeEntry(payload, PlusMinutes(savedAt, ttlInMinutes))];
      && (now <= savedAt + 60 * ttlInMinutes ==> Fetch(stored, code, now) == Ok(payload))
      && (now > savedAt + 60 * ttlInMinutes ==> Fetch(stored, code, now) == Err("code-e-01"))
      && Fetch(stored, other, now) == Fetch(codes, other, now)
  {
  }

  /** `get` does not consume a live code: a second `get` at the same
      instant gives the same payload; after a failed `get` the code is gone,
      so it fails at every later instant too. */
  lemma FetchTwice<T>(codes: map<string, CodeEntry<T>>, code: string, now: int, later: int)
    ensures Fetch(AfterFetch(codes, code, now), code, now) == Fetch(codes, code, now)
    ensures Fetch(codes, code, now).Err? ==> Fetch(AfterFetch(codes, code, now), code, later).Err?
  {
  }

  /** The store, a field the service updates in place. */
  class CodeUtil<T> {
    var verificationCodes: map<string, CodeEntry<T>>

    constructor()
      ensures verificationCodes == map[]
    {
      verificationCodes := map[];
    }

    /** `save`: expires `ttlInMinutes` minutes after `now`, replacing any
        earlier entry for the code. */
    method Save(code: string, payload: T, ttlInMinutes: int, now: int)
      modifies this
      ensures verificationCodes == old(verificationCodes)[code := CodeEntry(payload, PlusMinutes(now, ttlInMinutes))]
    {
      var expiresAt := PlusMinutes(now, ttlInMinutes);
      verificationCodes := verificationCodes[code := CodeEntry(payload, expiresAt)];
    }

    /** `get`. */
    method Get(code: string, now: int) returns (r: Result<T>)
      modifies this
      ensures r == Fetch(old(verificationCodes), code, now)
      ensures verificationCodes == AfterFetch(old(verificationCodes), code, now)
    {
      if code !in verificationCodes || verificationCodes[code].expiresAt < now {
        verificationCodes := verificationCodes - {code};
        return Err("code-e-01");
      }
      var entry := verificationCodes[code];
      r := Ok(entry.payload);
    }

    /** `remove`: only the given code goes. */
    method Remove(code: string)
      modifies this
      ensures verificationCodes == old(verificationCodes) - {code}
    {
      verificationCodes := verificationCodes - {code};
    }
  }
}
