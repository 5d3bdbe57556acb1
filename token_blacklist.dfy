/** The in-memory revocation list of signed-out tokens.

    Each token is kept with the instant its signature expires. A token counts
    as revoked up to and including that instant. After it, the entry is dead
    weight: a lookup drops it and so does the periodic sweep. The lock, the
    background removal and the hourly ticker are not modelled; the removal a
    lookup schedules happens within the lookup, and the sweep is a method the
    caller runs with the current instant. */
module TokenBlacklist {
  import opened Identifiers

  /** Whether `now` is strictly after `expiresAt`. */
  predicate After(now: Time, expiresAt: Time) {
    now > expiresAt
  }

  /** The answer of a lookup in the list `m` at instant `now`. */
  predicate Revoked(m: map<string, Time>, token: string, now: Time) {
    token in m && !After(now, m[token])
  }

  /** The entries a sweep at `now` keeps. */
  function Pruned(m: map<string, Time>, now: Time): (p: map<string, Time>)
    ensures forall t :: t in p <==> t in m && !After(now, m[t])
    ensures forall t :: t in p ==> p[t] == m[t]
  {
    map t | t in m && !After(now, m[t]) :: m[t]
  }

  /** A sweep does not change the answer of any lookup made at the same
      instant or later. */
  lemma PruningKeepsAnswers(m: map<string, Time>, swept: Time, now: Time, token: string)
    requires swept <= now
    ensures Revoked(Pruned(m, swept), token, now) == Revoked(m, token, now)
  {
    if token in m && !After(now, m[token]) {
      assert !After(swept, m[token]);
      assert token in Pruned(m, swept);
    }
  }

  /** Dropping an expired entry does not change the answer at that instant
      or later. */
  lemma DroppingExpiredKeepsAnswers(m: map<string, Time>, dropped: string, at: Time, now: Time, token: string)
    requires dropped in m && After(at, m[dropped]) && at <= now
    ensures Revoked(m - {dropped}, token, now) == Revoked(m, token, now)
  {
    if token == dropped {
      assert dropped !in m - {dropped};
    } else {
      assert token in m - {dropped} <==> token in m;
    }
  }

  /** The token counts as revoked at the very instant its signature expires. */
  lemma RevokedAtExpiry(m: map<string, Time>, token: string, expiresAt: Time)
    ensures Revoked(m[token := expiresAt], token, expiresAt)
    ensures !Revoked(m[token := expiresAt], token, expiresAt + 1)
  {
  }

  /** Re-adding a token overwrites its expiry and never grows the list. */
  lemma AddSize(m: map<string, Time>, token: string, expiresAt: Time)
    ensures |m[token := expiresAt]| == |m| + (if token in m then 0 else 1)
  {
    if token in m {
      assert m[token := expiresAt].Keys == m.Keys;
    } else {
      assert m[token := expiresAt].Keys == m.Keys + {token};
    }
  }

  class TokenBlacklistManager {
    var blacklist: map<string, Time>

    constructor ()
      ensures blacklist == map[]
    {
      blacklist := map[];
    }

    method AddToken(token: string, expiresAt: Time)
      modifies this
      ensures blacklist == old(blacklist)[token := expiresAt]
      ensures |blacklist| == |old(blacklist)| + (if token in old(blacklist) then 0 else 1)
    {
      AddSize(blacklist, token, expiresAt);
      blacklist := blacklist[token := expiresAt];
    }

    /** An expired entry is removed as a side effect of the lookup. */
    method IsBlacklisted(token: string, now: Time) returns (b: bool)
      modifies this
      ensures b == Revoked(old(blacklist), token, now)
      ensures token in old(blacklist) && After(now, old(blacklist)[token]) ==> blacklist == old(blacklist) - {token}
      ensures !(token in old(blacklist) && After(now, old(blacklist)[token])) ==> blacklist == old(blacklist)
    {
      if token !in blacklist {
        return false;
      }
      var expiresAt := blacklist[token];
      if After(now, expiresAt) {
        RemoveToken(token);
        return false;
      }
      b := true;
    }

    method RemoveToken(token: string)
      modifies this
      ensures blacklist == old(blacklist) - {token}
    {
      blacklist := blacklist - {token};
    }

    /** Deletes every entry expired at `now`, keeping the rest as they are. */
    method Cleanup(now: Time)
      modifies this
      ensures blacklist == Pruned(old(blacklist), now)
    {
      var pending := blacklist.Keys;
      while pending != {}
        invariant pending <= old(blacklist).Keys
        invariant forall t :: t in blacklist <==> t in old(blacklist) && (t in pending || !After(now, old(blacklist)[t]))
        invariant forall t :: t in blacklist ==> blacklist[t] == old(blacklist)[t]
        decreases pending
      {
        var token :| token in pending;
        if After(now, blacklist[token]) {
          blacklist := blacklist - {token};
        }
        pending := pending - {token};
      }
      assert blacklist.Keys == Pruned(old(blacklist), now).Keys;
    }

    function GetBlacklistSize(): (n: nat)
      reads this
      ensures n == |blacklist.Keys|
      ensures n == 0 <==> blacklist == map[]
    {
      |blacklist|
    }
  }
}
