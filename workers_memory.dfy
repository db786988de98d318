/**
 * The in-memory workers pseudo-backend (app/services/workers_service.py):
 * a class-level dict from email to profile dict, read by the lookups and
 * updated in place by `update_worker_stats`.
 */
module WorkersMemory {
  import opened Wrappers

  /** A profile value: the seeded profiles hold strings and counts. */
  datatype Field = Text(s: string) | Num(n: int)

  type Profile = map<string, Field>

  /** The keys `get_worker_statistics` copies. */
  const STAT_KEYS := {"total_orders", "completed_orders", "average_time", "satisfaction"}

  /** A profile that every read of the service can use: non-empty (truthy) and holding the statistics. */
  predicate Complete(p: Profile) {
    p != map[] && STAT_KEYS <= p.Keys
  }

  function SeedProfile(name: string, email: string, phone: string, joined: string, total: int, completed: int,
                       averageTime: string, satisfaction: string): (p: Profile)
    ensures Complete(p)
  {
    map["name" := Text(name), "empresa" := Text("Panedería de Alexis TEST"), "email" := Text(email),
        "phone" := Text(phone), "status" := Text("Activo"), "joined" := Text(joined),
        "total_orders" := Num(total), "completed_orders" := Num(completed),
        "average_time" := Text(averageTime), "satisfaction" := Text(satisfaction)]
  }

  /** `WorkersService` and its `WORKERS` dict; `emails` is the dict's key order. */
  class WorkersService {
    var workers: map<string, Profile>
    const emails: seq<string>

    /** The table's shape: every key once in `emails`, every profile complete. */
    ghost predicate Valid()
      reads this
    {
      && (forall i, j :: 0 <= i < j < |emails| ==> emails[i] != emails[j])
      && (forall e :: e in workers <==> e in emails)
      && (forall e :: e in workers ==> Complete(workers[e]))
    }

    constructor ()
      ensures Valid()
      ensures emails == ["worker@prontoa.test", "admin@prontoa.test"]
    {
      emails := ["worker@prontoa.test", "admin@prontoa.test"];
      workers := map[
        "worker@prontoa.test" := SeedProfile("Trabajador", "worker@prontoa.test", "+57 300 123 4567",
                                             "15 de Enero, 2024", 237, 235, "4.2 minutos", "98%"),
        "admin@prontoa.test" := SeedProfile("Administrador", "admin@prontoa.test", "+57 300 987 6543",
                                            "01 de Enero, 2024", 0, 0, "-", "-")];
    }

    /** `get_worker_profile`: `WORKERS.get(email)`. */
    function WorkerProfile(email: string): (r: Option<Profile>)
      reads this
      ensures r.Some? <==> email in workers
      ensures r.Some? ==> r.value == workers[email]
    {
      if email in workers then Some(workers[email]) else None
    }

    /** `get_all_workers`: one profile per key, in key order. */
    function AllWorkers(): (r: seq<Profile>)
      reads this
      requires Valid()
      ensures |r| == |emails| == |workers.Keys|
      ensures forall i :: 0 <= i < |r| ==> r[i] == workers[emails[i]]
      ensures forall e :: e in workers ==> workers[e] in r
    {
      DistinctCard(emails, workers.Keys);
      var w := workers;
      var r := seq(|emails|, i requires 0 <= i < |emails| => w[emails[i]]);
      assert forall e :: e in workers ==> workers[e] in r by {
        forall e | e in workers
          ensures workers[e] in r
        {
          var i :| 0 <= i < |emails| && emails[i] == e;
          assert r[i] == workers[e];
        }
      }
      r
    }

    /**
     * `update_worker_stats`: for a truthy profile, `dict.update` overwrites
     * the keys in `stats`, keeps the others, and answers True; otherwise
     * nothing changes.
     */
    method UpdateWorkerStats(email: string, stats: Profile) returns (updated: bool)
      modifies this
      ensures updated <==> email in old(workers) && old(workers)[email] != map[]
      ensures !updated ==> workers == old(workers)
      ensures updated ==> workers == old(workers)[email := old(workers)[email] + stats]
      ensures old(Valid()) ==> Valid() && (updated <==> email in old(workers))
    {
      var profile := WorkerProfile(email);
      if profile.Some? && profile.value != map[] {
        workers := workers[email := profile.value + stats];
        return true;
      }
      return false;
    }

    /** `get_worker_statistics`: exactly the four statistics of the profile, or None. */
    function WorkerStatistics(email: string): (r: Option<Profile>)
      reads this
      requires Valid()
      ensures r.Some? <==> email in workers
      ensures r.Some? ==> (r.value.Keys == STAT_KEYS
        && forall k :: k in STAT_KEYS ==> r.value[k] == workers[email][k])
    {
      match WorkerProfile(email)
      case None => None
      case Some(p) =>
        Some(map["total_orders" := p["total_orders"], "completed_orders" := p["completed_orders"],
                 "average_time" := p["average_time"], "satisfaction" := p["satisfaction"]])
    }
  }

  /** A duplicate-free key list has as many entries as the key set. */
  lemma {:induction false} DistinctCard(s: seq<string>, keys: set<string>)
    requires forall i, j :: 0 <= i < j < |s| ==> s[i] != s[j]
    requires forall e :: e in keys <==> e in s
    ensures |s| == |keys|
    decreases |s|
  {
    if s != [] {
      var init := s[..|s| - 1];
      var last := s[|s| - 1];
      assert last !in init;
      assert forall e :: e in keys - {last} <==> e in init by {
        assert s == init + [last];
      }
      DistinctCard(init, keys - {last});
    }
  }
}
