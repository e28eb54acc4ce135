/**
 * The callbacks of the client's once-a-second poll at start-up. A real-time snapshot
 * would be written into the real-time store unless it is older than what the store
 * holds. A bulletin list would be folded into a record keyed by bulletin id and written
 * into the bulletin store. A store write is Pinia's `$patch` with an object, which
 * merges plain objects key by key and replaces everything else. As the client is wired,
 * the two requests reject before any response arrives (the `ExpTechApi` of
 * `src/class/api.ts` calls `Route`'s static members through an instance), so these
 * callbacks describe what would happen with a response, not what happens at run time.
 */
module GlobalPoll {

  datatype RtsStation = RtsStation(pga: real, pgv: real, instant: real, decayed: real, alert: bool)

  datatype IntensityListing = IntensityListing(code: int, area: string, station: string, intensity: int)

  /** A real-time snapshot; `listing` is the source's `int` array. */
  datatype Rts = Rts(station: map<string, RtsStation>, box: map<string, int>, time: int, listing: seq<IntensityListing>)

  /** An earthquake early-warning bulletin; only its id matters to the poll. */
  datatype Eew = Eew(id: string, author: string, serial: int, status: int, final: bool)

  /** The real-time store's initial state. */
  const InitialRts: Rts := Rts(map[], map[], 0, [])

  /** `rtsStore.$patch(v)`: the maps are merged, the new entries winning; the rest is replaced. */
  function PatchRts(store: Rts, v: Rts): Rts {
    Rts(store.station + v.station, store.box + v.box, v.time, v.listing)
  }

  /** The snapshot callback: a snapshot older than the store's is dropped, any other is patched in. */
  function NextRts(store: Rts, v: Rts): (r: Rts)
    ensures v.time < store.time ==> r == store
    ensures v.time >= store.time ==> r.time == v.time && r.listing == v.listing
                                     && r.station.Keys == store.station.Keys + v.station.Keys
                                     && (forall s :: s in v.station ==> r.station[s] == v.station[s])
                                     && (forall s :: s in store.station && s !in v.station ==> r.station[s] == store.station[s])
    ensures v.time >= store.time ==> r.box.Keys == store.box.Keys + v.box.Keys
                                     && (forall b :: b in v.box ==> r.box[b] == v.box[b])
                                     && (forall b :: b in store.box && b !in v.box ==> r.box[b] == store.box[b])
  {
    if v.time < store.time then store else PatchRts(store, v)
  }

  /** The store after the callbacks for a run of snapshots, in the order they resolved. */
  function RunRts(store: Rts, vs: seq<Rts>): Rts
    decreases |vs|
  {
    if vs == [] then store else RunRts(NextRts(store, vs[0]), vs[1..])
  }

  function Max(a: int, b: int): int { if a >= b then a else b }

  /** The latest time among the store's and the snapshots'. */
  function LatestTime(t: int, vs: seq<Rts>): int
    decreases |vs|
  {
    if vs == [] then t else LatestTime(Max(t, vs[0].time), vs[1..])
  }

  /**
   * Whatever order the snapshots resolve in, the store's time never goes back: it ends
   * at the latest time seen, and a snapshot older than that is never applied after it.
   */
  lemma {:induction false} RunRtsTime(store: Rts, vs: seq<Rts>)
    ensures RunRts(store, vs).time == LatestTime(store.time, vs)
    ensures RunRts(store, vs).time >= store.time
    ensures forall i :: 0 <= i < |vs| ==> RunRts(store, vs).time >= vs[i].time
    decreases |vs|
  {
    if vs != [] {
      var next := NextRts(store, vs[0]);
      assert next.time == Max(store.time, vs[0].time);
      RunRtsTime(next, vs[1..]);
      forall i | 0 < i < |vs| ensures RunRts(store, vs).time >= vs[i].time {
        assert vs[1..][i - 1] == vs[i];
      }
    }
  }

  /** The real-time store: Pinia state `{ box, int, station, time }`. */
  class RtsStore {
    var state: Rts

    constructor ()
      ensures state == InitialRts
    {
      state := InitialRts;
    }

    /** The snapshot callback of the poll. */
    method OnRtsPolled(v: Rts)
      modifies this
      ensures state == NextRts(old(state), v)
    {
      if v.time < state.time {
        return;
      }
      state := PatchRts(state, v);
    }
  }

  /** The ids of the bulletins in a list. */
  ghost function Ids(list: seq<Eew>): set<string> {
    set i | 0 <= i < |list| :: list[i].id
  }

  /** In `list`, position i holds the last bulletin with that id. */
  ghost predicate LastWithId(list: seq<Eew>, i: int) {
    0 <= i < |list| && forall j :: i < j < |list| ==> list[j].id != list[i].id
  }

  /**
   * The fold of the bulletin list into a record: an empty object, then each bulletin in
   * turn written under its id, so one entry per id holds the last bulletin with that id.
   */
  method EewRecord(list: seq<Eew>) returns (acc: map<string, Eew>)
    ensures acc.Keys == Ids(list)
    ensures forall id :: id in acc ==> acc[id].id == id
    ensures forall id :: id in acc ==> exists i :: LastWithId(list, i) && list[i] == acc[id]
  {
    acc := map[];
    for k := 0 to |list|
      invariant acc.Keys == set i | 0 <= i < k :: list[i].id
      invariant forall id :: id in acc ==> acc[id].id == id
      invariant forall id :: id in acc ==> exists i :: 0 <= i < k && list[i] == acc[id]
                                                      && forall j :: i < j < k ==> list[j].id != id
    {
      acc := acc[list[k].id := list[k]];
    }
  }

  /** The bulletin store: Pinia state `{ eew }`. */
  class EewStore {
    var eew: map<string, Eew>

    constructor ()
      ensures eew == map[]
    {
      eew := map[];
    }

    /** The bulletin callback of the poll: the record is merged into the store's `eew` object. */
    method OnEewPolled(list: seq<Eew>)
      modifies this
      ensures eew.Keys == old(eew).Keys + Ids(list)
      ensures forall id :: id in Ids(list) ==> exists i :: LastWithId(list, i) && list[i] == eew[id]
      ensures forall id :: id in old(eew) && id !in Ids(list) ==> eew[id] == old(eew)[id]
    {
      var record := EewRecord(list);
      eew := eew + record;
    }
  }
}
