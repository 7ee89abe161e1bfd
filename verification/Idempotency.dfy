/** Idempotency records: the statements on one of them, and the store that issues them. */
module Idempotency {
  import opened Wrappers

  // in milliseconds
  const LOCK_LEASE := 120_000
  const KEY_TTL := 86_400_000

  datatype Response = Response(code: int, body: string)

  datatype Record = Record(hash: string, response: Option<Response>, lockedAt: Option<nat>, createdAt: nat)

  datatype Key = Key(user: string, key: string)

  datatype Begun = Execute | Replay(response: Response) | PayloadMismatch | InFlight

  // ---------------------------------------------------------------- one record, one statement

  /** insert .. on conflict do nothing */
  function Claim(r: Option<Record>, hash: string, now: nat): Option<Record> {
    if r.None? then Some(Record(hash, None, Some(now), now)) else r
  }

  /** Claimed, not completed, and the claim older than the lease. */
  predicate Reclaimable(r: Option<Record>, now: nat) {
    && r.Some? && r.value.response.None?
    && r.value.lockedAt.Some? && r.value.lockedAt.value + LOCK_LEASE < now
  }

  function Reclaim(r: Option<Record>, now: nat): Option<Record> {
    if Reclaimable(r, now) then Some(r.value.(lockedAt := Some(now))) else r
  }

  /** The unguarded update that stores the response. */
  function Finish(r: Option<Record>, response: Response): Option<Record> {
    if r.Some? then Some(r.value.(response := Some(response), lockedAt := None)) else r
  }

  /** What Begin makes of the record it selects; None is the case that goes on to reclaim. */
  function Judge(r: Option<Record>, hash: string): Option<Begun> {
    if r.None? then Some(InFlight)
    else if r.value.hash != hash then Some(PayloadMismatch)
    else if r.value.response.Some? then Some(Replay(r.value.response.value))
    else None
  }

  // ---------------------------------------------------------------- the table

  type Table = map<Key, Record>

  function Lookup(t: Table, k: Key): Option<Record> {
    if k in t then Some(t[k]) else None
  }

  function Update(t: Table, k: Key, r: Option<Record>): Table {
    if r.Some? then t[k := r.value] else t - {k}
  }

  /** A statement another request may issue between two of ours. */
  datatype Statement =
    | ClaimKey(k: Key, hash: string, now: nat)
    | ReclaimKey(k: Key, now: nat)
    | CompleteKey(k: Key, response: Response)
    | PurgeKeys(now: nat)

  predicate Expired(r: Record, now: nat) {
    r.createdAt + KEY_TTL < now
  }

  function Apply(t: Table, s: Statement): Table {
    match s
    case ClaimKey(k, hash, now) => Update(t, k, Claim(Lookup(t, k), hash, now))
    case ReclaimKey(k, now) => Update(t, k, Reclaim(Lookup(t, k), now))
    case CompleteKey(k, response) => Update(t, k, Finish(Lookup(t, k), response))
    case PurgeKeys(now) => map k | k in t && !Expired(t[k], now) :: t[k]
  }

  function ApplyAll(t: Table, ss: seq<Statement>): Table
    decreases |ss|
  {
    if ss == [] then t else Apply(ApplyAll(t, ss[..|ss| - 1]), ss[|ss| - 1])
  }

  class Store {
    var records: Table

    constructor ()
      ensures records == map[]
    {
      records := map[];
    }

    method TryClaim(k: Key, hash: string, now: nat) returns (claimed: bool)
      modifies this
      ensures records == Apply(old(records), ClaimKey(k, hash, now))
      ensures claimed <==> k !in old(records)
      ensures claimed ==> records == old(records)[k := Record(hash, None, Some(now), now)]
      ensures !claimed ==> records == old(records)
    {
      claimed := k !in records;
      if claimed {
        records := records[k := Record(hash, None, Some(now), now)];
      } else {
        assert records == Update(records, k, Some(records[k]));
      }
    }

    method TryReclaim(k: Key, now: nat) returns (taken: bool)
      modifies this
      ensures records == Apply(old(records), ReclaimKey(k, now))
      ensures taken <==> (
                && k in old(records)
                && old(records)[k].response.None? && old(records)[k].lockedAt.Some?
                && old(records)[k].lockedAt.value + 120_000 < now)
      ensures taken ==> records == old(records)[k := old(records)[k].(lockedAt := Some(now))]
      ensures !taken ==> records == old(records)
    {
      taken := false;
      if k in records && records[k].response.None? && records[k].lockedAt.Some?
         && records[k].lockedAt.value + LOCK_LEASE < now {
        records := records[k := records[k].(lockedAt := Some(now))];
        taken := true;
      } else {
        assert records == Update(records, k, Lookup(records, k));
      }
    }

    method Complete(k: Key, response: Response)
      modifies this
      ensures records == Apply(old(records), CompleteKey(k, response))
      ensures k in old(records) ==>
                records == old(records)[k := old(records)[k].(response := Some(response), lockedAt := None)]
      ensures k !in old(records) ==> records == old(records)
    {
      if k in records {
        records := records[k := records[k].(response := Some(response), lockedAt := None)];
      } else {
        assert records == Update(records, k, None);
      }
    }

    /** What is older than 24 hours goes, completed or not; the rest stays as it is. */
    method Purge(now: nat) returns (purged: nat)
      modifies this
      ensures records == Apply(old(records), PurgeKeys(now))
      ensures forall k :: k in records <==> k in old(records) && now <= old(records)[k].createdAt + 86_400_000
      ensures forall k :: k in records ==> records[k] == old(records)[k]
      ensures purged + |records| == |old(records)|
    {
      var gone := set k | k in records && Expired(records[k], now);
      purged := |gone|;
      var kept := map k | k in records && !Expired(records[k], now) :: records[k];
      assert kept.Keys == records.Keys - gone;
      assert |records.Keys| == |kept.Keys| + |gone|;
      records := kept;
    }

    /** Other requests' statements, one at a time. */
    method Others(ss: seq<Statement>)
      modifies this
      ensures records == ApplyAll(old(records), ss)
    {
      for i := 0 to |ss|
        invariant records == ApplyAll(old(records), ss[..i])
      {
        match ss[i] {
          case ClaimKey(k, hash, now) => var _ := TryClaim(k, hash, now);
          case ReclaimKey(k, now) => var _ := TryReclaim(k, now);
          case CompleteKey(k, response) => Complete(k, response);
          case PurgeKeys(now) => var _ := Purge(now);
        }
        assert ss[..i + 1][..i] == ss[..i];
      }
      assert ss[..|ss|] == ss;
    }

    /**
     * Begin's three statements at their three times, with whatever the other requests do in
     * between. It grants the execution exactly when its claim or its reclaim takes the record.
     */
    method Begin(k: Key, hash: string, t1: nat, t3: nat, before: seq<Statement>, after: seq<Statement>)
      returns (b: Begun)
      modifies this
      ensures k !in old(records) ==>
                b == Execute && records == old(records)[k := Record(hash, None, Some(t1), t1)]
      ensures k in old(records) ==>
                var selected := ApplyAll(old(records), before);
                if k !in selected then b == InFlight && records == selected
                else if selected[k].hash != hash then b == PayloadMismatch && records == selected
                else if selected[k].response.Some? then
                  b == Replay(selected[k].response.value) && records == selected
                else
                  var last := ApplyAll(selected, after);
                  if && k in last && last[k].response.None? && last[k].lockedAt.Some?
                     && last[k].lockedAt.value + 120_000 < t3
                  then b == Execute && records == last[k := last[k].(lockedAt := Some(t3))]
                  else b == InFlight && records == last
    {
      var claimed := TryClaim(k, hash, t1);
      if claimed {
        return Execute;
      }
      Others(before);
      var judged := Judge(Lookup(records, k), hash);
      if judged.Some? {
        return judged.value;
      }
      Others(after);
      var taken := TryReclaim(k, t3);
      return if taken then Execute else InFlight;
    }
  }
}
