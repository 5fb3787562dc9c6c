/** The managers of one process around its tombstone and the shared credentials file. */
module OAuthObjects {
  import opened Wrappers
  import opened OAuthRefresh

  class CredentialsFile {
    var token: Token

    constructor (token: Token)
      ensures this.token == token
    {
      this.token := token;
    }
  }

  /** Module-level state of a process, seen by all its managers. */
  class RejectedTokens {
    var tombstone: Option<Tombstone>

    constructor ()
      ensures tombstone == None
    {
      tombstone := None;
    }
  }

  class OAuthManager {
    const file: CredentialsFile
    const process: RejectedTokens
    var accessToken: Option<Token>

    constructor (file: CredentialsFile, process: RejectedTokens)
      ensures this.file == file && this.process == process && accessToken == None
    {
      this.file, this.process, accessToken := file, process, None;
    }

    ghost function View(): Local
      reads this, process
    {
      Local(process.tombstone, accessToken)
    }

    method RejectedRefreshState(refresh: nat) returns (tombstone: Option<Tombstone>)
      modifies process
      ensures View() == Forget(old(View()), refresh)
      ensures tombstone.Some? <==> IsSuppressed(View(), refresh)
      ensures tombstone.Some? ==> tombstone == process.tombstone
    {
      if refresh == NO_TOKEN {
        return None;
      }
      if process.tombstone.Some? && process.tombstone.value.refresh != refresh {
        process.tombstone := None;
        return None;
      }
      return process.tombstone;
    }

    method CacheAccessToken(token: Token)
      modifies this
      ensures View() == Cache(old(View()), token)
    {
      if token.access == "" {
        accessToken := None;
        return;
      }
      accessToken := Some(token);
    }

    method MarkRejected(refresh: nat, now: real)
      modifies this, process
      ensures View() == Reject(old(View()), refresh, now)
    {
      if refresh != NO_TOKEN {
        process.tombstone := Some(Tombstone(refresh, now + COOLDOWN_SECONDS));
      }
      accessToken := None;
    }

    method AdoptPersisted(token: Token)
      modifies this, process
      ensures View() == Adopt(old(View()), token)
    {
      process.tombstone := None;
      CacheAccessToken(token);
    }

    method ObservePersisted() returns (suppressed: bool)
      modifies this, process
      ensures View() == Observe(old(View()), file.token)
      ensures suppressed <==> IsSuppressed(View(), file.token.refresh)
    {
      var tombstone := RejectedRefreshState(file.token.refresh);
      if tombstone.None? {
        CacheAccessToken(file.token);
      }
      return tombstone.Some?;
    }

    /** `ensure_fresh` up to its call of `_refresh_tokens`. */
    method EnsureFresh(force: bool, now: real) returns (phase: Phase)
      modifies this, process
      ensures (View(), phase) == Load(old(View()), file.token, force, now)
    {
      var tombstone := RejectedRefreshState(file.token.refresh);
      if tombstone.Some? {
        accessToken := None;
        if now < tombstone.value.retryAfter {
          return Done(force);
        }
      } else {
        CacheAccessToken(file.token);
      }
      return Loaded;
    }

    /** `_refresh_tokens` before the in-process lock. */
    method PrepareRefresh() returns (phase: Phase)
      modifies this, process
      ensures (View(), phase) == Prepare(old(View()), file.token)
    {
      var _ := ObservePersisted();
      if file.token.refresh == NO_TOKEN {
        return Done(false);
      }
      return Queued;
    }

    /** `_refresh_tokens` inside the in-process lock, before the file lock. */
    method CheckInside(force: bool, now: real) returns (phase: Phase)
      modifies this, process
      ensures (View(), phase) == Check(old(View()), file.token, force, now)
    {
      var suppressed := ObservePersisted();
      var current := file.token;
      if !force {
        if current.expiresAt != 0.0 && current.expiresAt > now && current.expiresAt - now >= Threshold(current.expiresIn) {
          return Done(false);
        }
      }
      if current.refresh == NO_TOKEN {
        return Done(false);
      }
      if suppressed && now < process.tombstone.value.retryAfter {
        accessToken := None;
        return Done(force);
      }
      return Waiting(current.refresh);
    }

    /** The third look at the file, by the holder of the file lock. */
    method RecheckLocked(refresh: nat, force: bool, now: real) returns (phase: Phase)
      modifies this, process
      ensures (View(), phase) == Recheck(old(View()), file.token, refresh, force, now)
    {
      var locked := file.token;
      if locked.refresh != refresh {
        AdoptPersisted(locked);
        return Done(false);
      }
      if !force {
        var remaining := locked.expiresAt - now;
        if locked.expiresAt != 0.0 && remaining >= Threshold(locked.expiresIn) {
          AdoptPersisted(locked);
          return Done(false);
        }
      }
      return Posting(refresh, true, 0);
    }

    method SaveRefreshed(token: Token) returns (phase: Phase)
      modifies this, process, file
      ensures file.token == token
      ensures (View(), phase) == (Adopt(old(View()), token), Done(false))
    {
      process.tombstone := None;
      file.token := token;
      CacheAccessToken(token);
      return Done(false);
    }

    method SettleRefusal(refresh: nat, force: bool, now: real) returns (phase: Phase)
      modifies this, process
      ensures (View(), phase) == Settle(old(View()), file.token, refresh, force, now)
    {
      var latest := file.token;
      if latest.refresh != refresh {
        AdoptPersisted(latest);
        return Done(false);
      }
      MarkRejected(refresh, now);
      return Done(force);
    }
  }
}
