/** The mutex-protected guard object. */
module MemoryGuards {
  import opened Domain
  import opened Storage
  import opened Guard

  class MemoryGuard {
    var entries: Entries

    constructor ()
      ensures entries == map[]
    {
      entries := map[];
    }

    method AcquireLock(ctx: Context, tenantID: string, key: string, ttl: int, now: int) returns (res: Outcome<Acquisition>)
      modifies this, ctx
      ensures old(ctx.cancelled) ==> ctx.cancelled
      ensures ctx.cancelled || tenantID == "" || key == "" ==>
                res == Err(if ctx.cancelled then Cancelled else InvalidParameters) && entries == old(entries)
      ensures !ctx.cancelled && tenantID != "" && key != "" ==>
                res.Ok? && (entries, res.value) == Guard.AcquireLock(old(entries), CompositeKey(tenantID, key), now, ttl)
      ensures !ctx.cancelled && tenantID != "" && key != "" ==>
                var k, es := tenantID + ":" + key, old(entries);
                if k in es && now < es[k].expiresAt && es[k].cached.Some? then res == Ok(Replay(es[k].cached.value)) && entries == es
                else if k in es && now < es[k].expiresAt && es[k].inFlight then res == Ok(Busy) && entries == es
                else res == Ok(Acquired) && entries == es[k := Entry(true, None, now + ttl)]
    {
      var stop := ctx.Err();
      if stop {
        return Err(Cancelled);
      }
      if tenantID == "" || key == "" {
        return Err(InvalidParameters);
      }
      var k := tenantID + ":" + key;
      if k in entries {
        var entry := entries[k];
        if now < entry.expiresAt {
          if entry.cached.Some? {
            return Ok(Replay(entry.cached.value));
          }
          if entry.inFlight {
            return Ok(Busy);
          }
        }
      }
      entries := entries[k := Entry(true, None, now + ttl)];
      return Ok(Acquired);
    }

    method SetResponse(ctx: Context, tenantID: string, key: string, resp: CachedResponse, ttl: int, now: int) returns (res: Outcome<()>)
      modifies this, ctx
      ensures old(ctx.cancelled) ==> ctx.cancelled
      ensures res.Err? <==> ctx.cancelled || tenantID == "" || key == ""
      ensures entries == if res.Err? then old(entries) else Guard.SetResponse(old(entries), CompositeKey(tenantID, key), resp, now, ttl)
      ensures res.Ok? ==> entries == old(entries)[tenantID + ":" + key := Entry(false, Some(resp), now + ttl)]
    {
      var stop := ctx.Err();
      if stop {
        return Err(Cancelled);
      }
      if tenantID == "" || key == "" {
        return Err(InvalidParameters);
      }
      entries := entries[tenantID + ":" + key := Entry(false, Some(resp), now + ttl)];
      return Ok(());
    }

    method ReleaseLock(ctx: Context, tenantID: string, key: string) returns (res: Outcome<()>)
      modifies this, ctx
      ensures old(ctx.cancelled) ==> ctx.cancelled
      ensures res.Err? <==> ctx.cancelled || tenantID == "" || key == ""
      ensures entries == if res.Err? then old(entries) else Guard.ReleaseLock(old(entries), CompositeKey(tenantID, key))
      ensures var k := tenantID + ":" + key;
              res.Ok? ==> entries == if k in old(entries) && old(entries)[k].inFlight then old(entries) - {k} else old(entries)
    {
      var stop := ctx.Err();
      if stop {
        return Err(Cancelled);
      }
      if tenantID == "" || key == "" {
        return Err(InvalidParameters);
      }
      var k := tenantID + ":" + key;
      if k in entries && entries[k].inFlight {
        entries := entries - {k};
      }
      return Ok(());
    }
  }
}
