/** The credential cache: a struct is reused only while it is fresh and came from the very host the
    handle uses now. Host changes are told apart by a generation counter shared by all handles. */
module CredentialCache {
  import opened Bytes

  /** CONFIG_ values: refresh margin and fallback lifetime, in seconds. */
  datatype Config = Config(margin: nat, ttl: nat)

  datatype Keys = Keys(accessKey: bytes, secret: bytes, token: bytes)

  /** A caller's struct; keys None is the zeroed struct. fetchedFrom records which host answered. */
  datatype Creds = Creds(keys: Option<Keys>, expiration: int, refreshAt: int, hostGen: nat, alias: bytes, fetchedFrom: bytes)

  datatype Ctx = Ctx(credHost: bytes, credHostGen: nat)

  /** What creds_fetch() brings back: the strings and the parsed expiry, 0 when absent. */
  datatype Fetched = Fetched(keys: Keys, expiration: int)

  datatype CredsError = WrongAlias | ClockUntrusted | FetchFailed

  const GEN_MODULUS: nat := 0x1_0000_0000

  /** creds_refresh() between lock and unlock, after its alias and clock checks. */
  function Refresh(cfg: Config, h: Ctx, c: Creds, alias: bytes, trusted: bool, now: int, fetch: Option<Fetched>)
    : (r: (Result<bool, CredsError>, Creds))
  {
    if c.keys.Some? && c.alias != alias then (Err(WrongAlias), c)
    else if !trusted then (Err(ClockUntrusted), c)
    else if !(c.keys.None? || c.hostGen != h.credHostGen || now >= c.refreshAt) then (Ok(false), c)
    else if fetch.None? then (Err(FetchFailed), c)
    else
      var expiration := if fetch.value.expiration <= now then now + cfg.ttl else fetch.value.expiration;
      var half := (expiration - now) / 2;
      var margin := if half > cfg.margin then cfg.margin else half;
      (Ok(true), Creds(Some(fetch.value.keys), expiration, expiration - margin, h.credHostGen, alias, h.credHost))
  }

  /** What a refresh promises. It reuses the struct exactly when that has credentials of this alias and host
      and is not due; a fetch stores the keys fetched and their expiry, or the fallback when that is past,
      and is due again the margin, or half of the time left if that is less, before the expiry. */
  predicate Refreshed(cfg: Config, h: Ctx, c: Creds, alias: bytes, trusted: bool, now: int, fetch: Option<Fetched>,
                      r: Result<bool, CredsError>, d: Creds)
  {
    && (r == Err(WrongAlias) <==> c.keys.Some? && c.alias != alias)
    && (r == Err(ClockUntrusted) <==> !(c.keys.Some? && c.alias != alias) && !trusted)
    && (r == Ok(false) <==>
          c.keys.Some? && c.alias == alias && trusted && c.hostGen == h.credHostGen && now < c.refreshAt)
    && (r == Ok(true) ==> fetch.Some?)
    && (r == Err(FetchFailed) ==> fetch.None?)
    && (r != Ok(true) ==> d == c)
    && (r == Ok(true) ==>
          && d.keys == Some(fetch.value.keys) && d.alias == alias && d.hostGen == h.credHostGen && d.fetchedFrom == h.credHost
          && (fetch.value.expiration > now ==> d.expiration == fetch.value.expiration)
          && (fetch.value.expiration <= now ==> d.expiration == now + cfg.ttl)
          && var early := d.expiration - d.refreshAt; var left := d.expiration - now;
             early <= cfg.margin && 2 * early <= left && (early == cfg.margin || left - 2 * early <= 1))
  }

  lemma RefreshIs(cfg: Config, h: Ctx, c: Creds, alias: bytes, trusted: bool, now: int, fetch: Option<Fetched>)
    ensures var (r, d) := Refresh(cfg, h, c, alias, trusted, now, fetch);
      Refreshed(cfg, h, c, alias, trusted, now, fetch, r, d)
  {
  }

  // ---------------------------------------------------------------- the imperative form

  class Generations {
    var last: nat                 // s_last_host_gen

    ghost predicate Valid() reads this { last < GEN_MODULUS }

    constructor ()
      ensures Valid() && last == 0
    {
      last := 0;
    }

    /** next_host_gen(): never 0, even when the 32-bit counter wraps; until it wraps, one more. */
    method Next() returns (gen: nat)
      requires Valid()
      modifies this
      ensures Valid() && gen == last && 0 < gen < GEN_MODULUS
      ensures old(last) < GEN_MODULUS - 1 ==> gen == old(last) + 1
      ensures old(last) == GEN_MODULUS - 1 ==> gen == 1
    {
      last := (last + 1) % GEN_MODULUS;
      gen := last;
      while gen == 0
        invariant Valid() && gen == last
        invariant gen == 0 ==> old(last) == GEN_MODULUS - 1
        invariant old(last) < GEN_MODULUS - 1 ==> gen == old(last) + 1
        invariant old(last) == GEN_MODULUS - 1 ==> gen <= 1
        decreases if gen == 0 then 1 else 0
      {
        last := (last + 1) % GEN_MODULUS;
        gen := last;
      }
    }
  }

  /** A handle and the structs callers pass to it. */
  class Client {
    const cfg: Config
    const gens: Generations
    var ctx: Ctx

    constructor (cfg: Config, gens: Generations, host: bytes)
      requires gens.Valid()
      modifies gens
      ensures gens.Valid() && this.cfg == cfg && this.gens == gens
      ensures ctx == Ctx(host, gens.last)
      ensures old(gens.last) < GEN_MODULUS - 1 ==> gens.last == old(gens.last) + 1
    {
      this.cfg, this.gens := cfg, gens;
      new;
      var gen := gens.Next();
      ctx := Ctx(host, gen);
    }

    /** set_cred_host(). */
    method SetCredHost(host: bytes)
      requires gens.Valid()
      modifies this, gens
      ensures gens.Valid() && ctx == Ctx(host, gens.last)
      ensures old(gens.last) < GEN_MODULUS - 1 ==> gens.last == old(gens.last) + 1
    {
      ctx := ctx.(credHost := host);
      var gen := gens.Next();
      ctx := ctx.(credHostGen := gen);
    }

    /** creds_refresh(): the struct before and after. */
    method CredsRefresh(creds: Creds, alias: bytes, trusted: bool, now: int, fetch: Option<Fetched>)
      returns (r: Result<bool, CredsError>, after: Creds)
      ensures Refreshed(cfg, ctx, creds, alias, trusted, now, fetch, r, after)
      ensures (r, after) == Refresh(cfg, ctx, creds, alias, trusted, now, fetch)
    {
      after := creds;
      if creds.keys.Some? && creds.alias != alias {
        return Err(WrongAlias), creds;
      }
      if !trusted {
        return Err(ClockUntrusted), creds;
      }
      var stale := creds.keys.None? || creds.hostGen != ctx.credHostGen || now >= creds.refreshAt;
      r := Ok(stale);
      if stale {
        if fetch.None? {
          return Err(FetchFailed), creds;
        }
        var expiration := fetch.value.expiration;
        if expiration <= now {
          expiration := now + cfg.ttl;
        }
        var margin := (expiration - now) / 2;
        if margin > cfg.margin {
          margin := cfg.margin;
        }
        after := Creds(Some(fetch.value.keys), expiration, expiration - margin, ctx.credHostGen, alias, ctx.credHost);
      }
    }
  }

  // ---------------------------------------------------------------- all interleavings

  /** Every handle and struct of the process; hostOf records which host each generation named. */
  datatype World = World(lastGen: nat, handles: map<nat, Ctx>, structs: map<nat, Creds>, hostOf: map<nat, bytes>)

  /** The atomic steps: each runs under its handle's credential lock. */
  datatype Op =
    | Create(h: nat, host: bytes)
    | SetHost(h: nat, host: bytes)
    | NewStruct(s: nat)
    | DoRefresh(h: nat, s: nat, alias: bytes, trusted: bool, now: int, fetch: Option<Fetched>)

  predicate Enabled(w: World, op: Op) {
    match op
    case Create(h, _) => h !in w.handles && w.lastGen < GEN_MODULUS - 1
    case SetHost(h, _) => h in w.handles && w.lastGen < GEN_MODULUS - 1
    case NewStruct(s) => s !in w.structs
    case DoRefresh(h, s, _, _, _, _) => h in w.handles && s in w.structs
  }

  function NewHost(w: World, h: nat, host: bytes): World {
    var gen := w.lastGen + 1;
    w.(lastGen := gen, handles := w.handles[h := Ctx(host, gen)], hostOf := w.hostOf[gen := host])
  }

  function Apply(cfg: Config, w: World, op: Op): World
    requires Enabled(w, op)
  {
    match op
    case Create(h, host) => NewHost(w, h, host)
    case SetHost(h, host) => NewHost(w, h, host)
    case NewStruct(s) => w.(structs := w.structs[s := Creds(None, 0, 0, 0, [], [])])
    case DoRefresh(h, s, alias, trusted, now, fetch) =>
      w.(structs := w.structs[s := Refresh(cfg, w.handles[h], w.structs[s], alias, trusted, now, fetch).1])
  }

  const START: World := World(0, map[], map[], map[])

  ghost predicate Inv(w: World) {
    && (forall g :: g in w.hostOf ==> 0 < g <= w.lastGen)
    && (forall h :: h in w.handles ==> w.handles[h].credHostGen in w.hostOf && w.hostOf[w.handles[h].credHostGen] == w.handles[h].credHost)
    && (forall h, k :: h in w.handles && k in w.handles && h != k ==> w.handles[h].credHostGen != w.handles[k].credHostGen)
    && (forall s :: s in w.structs && w.structs[s].keys.Some? ==>
          w.structs[s].hostGen in w.hostOf && w.hostOf[w.structs[s].hostGen] == w.structs[s].fetchedFrom
          && w.structs[s].refreshAt <= w.structs[s].expiration)
  }

  lemma InvStep(cfg: Config, w: World, op: Op)
    requires Inv(w) && Enabled(w, op) && cfg.ttl >= 1
    ensures Inv(Apply(cfg, w, op))
  {
  }

  ghost predicate IsRun(cfg: Config, ws: seq<World>, ops: seq<Op>) {
    && |ws| == |ops| + 1 && ws[0] == START
    && forall k :: 0 <= k < |ops| ==> Enabled(ws[k], ops[k]) && ws[k + 1] == Apply(cfg, ws[k], ops[k])
  }

  lemma {:induction false} InvAlways(cfg: Config, ws: seq<World>, ops: seq<Op>, k: nat)
    requires IsRun(cfg, ws, ops) && k < |ws| && cfg.ttl >= 1
    ensures Inv(ws[k])
  {
    if k > 0 {
      InvAlways(cfg, ws, ops, k - 1);
      InvStep(cfg, ws[k - 1], ops[k - 1]);
    }
  }

  /** In every run, after any successful refresh the struct is not due and not expired, its strings came
      from the host its tag names, and that is the handle's host at the unlock; keys, expiry and due time are
      those of Refreshed; a failed refresh leaves the struct as it was. */
  lemma RefreshIsFresh(cfg: Config, ws: seq<World>, ops: seq<Op>, k: nat)
    requires IsRun(cfg, ws, ops) && k < |ops| && ops[k].DoRefresh? && cfg.ttl >= 1
    ensures var op := ops[k]; var h := ws[k + 1].handles[op.h]; var c := ws[k + 1].structs[op.s];
      var r := Refresh(cfg, ws[k].handles[op.h], ws[k].structs[op.s], op.alias, op.trusted, op.now, op.fetch).0;
      && (r.Ok? ==>
            && c.keys.Some? && op.now < c.refreshAt <= c.expiration && c.alias == op.alias
            && c.hostGen == h.credHostGen && c.fetchedFrom == h.credHost)
      && Refreshed(cfg, h, ws[k].structs[op.s], op.alias, op.trusted, op.now, op.fetch, r, c)
      && (r.Err? ==> ws[k + 1] == ws[k])
  {
    InvAlways(cfg, ws, ops, k);
    var op := ops[k];
    RefreshIs(cfg, ws[k].handles[op.h], ws[k].structs[op.s], op.alias, op.trusted, op.now, op.fetch);
  }

  /** After a host change no struct in existence is reusable on that handle: its next refresh fetches. */
  lemma HostChangeInvalidates(cfg: Config, ws: seq<World>, ops: seq<Op>, k: nat, s: nat, alias: bytes, trusted: bool,
                              now: int, fetch: Option<Fetched>)
    requires IsRun(cfg, ws, ops) && k < |ops| && ops[k].SetHost? && s in ws[k + 1].structs && cfg.ttl >= 1
    ensures Refresh(cfg, ws[k + 1].handles[ops[k].h], ws[k + 1].structs[s], alias, trusted, now, fetch).0 != Ok(false)
  {
    InvAlways(cfg, ws, ops, k);
  }
}
