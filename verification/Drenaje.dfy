/** The table and the worker of the replica drill, updated in place. */
module Drenaje {
  import opened Outbox

  ghost function Esperando(estados: seq<Estado>): set<nat>
  {
    set e: nat | e < |estados| && estados[e] == PENDING
  }

  ghost function Huerfanas(estados: seq<Estado>, viejas: set<nat>): set<nat>
  {
    set e | e in viejas && e < |estados| && estados[e] == PUBLISHING
  }

  /** Who claimed the row, in order. */
  function Nombres(claimedBy: map<nat, seq<string>>, id: nat): seq<string>
  {
    if id in claimedBy then claimedBy[id] else []
  }

  ghost predicate Movida(antes: seq<Estado>, despues: seq<Estado>, id: nat)
  {
    id < |antes| && id < |despues| && antes[id] == PENDING && despues[id] == PROCESSED
  }

  /** The rows moved between the two tables, and only they, have `worker` once more at the end of their names. */
  ghost predicate Anotados(a: map<nat, seq<string>>, b: map<nat, seq<string>>, antes: seq<Estado>, despues: seq<Estado>,
                           worker: string)
  {
    forall id: nat :: Nombres(b, id) == Nombres(a, id) + if Movida(antes, despues, id) then [worker] else []
  }

  lemma AnotadosEnDosVeces(a: map<nat, seq<string>>, b: map<nat, seq<string>>, c: map<nat, seq<string>>,
                           e0: seq<Estado>, e1: seq<Estado>, e2: seq<Estado>, worker: string)
    requires Drenado(e0, e1) && Drenado(e1, e2)
    requires Anotados(a, b, e0, e1, worker) && Anotados(b, c, e1, e2, worker)
    ensures Drenado(e0, e2) && Anotados(a, c, e0, e2, worker)
  {
    forall id: nat ensures Nombres(c, id) == Nombres(a, id) + if Movida(e0, e2, id) then [worker] else [] {
      if Movida(e0, e1, id) {
        assert Movida(e0, e2, id) && Nombres(b, id) == Nombres(a, id) + [worker];
        assert !Movida(e1, e2, id) && Nombres(c, id) == Nombres(b, id) + [];
      } else {
        assert Movida(e0, e2, id) == Movida(e1, e2, id) && Nombres(b, id) == Nombres(a, id) + [];
        assert Nombres(b, id) == Nombres(a, id);
      }
    }
  }

  /** Rows only move from PENDING to PROCESSED. */
  ghost predicate Drenado(antes: seq<Estado>, despues: seq<Estado>)
  {
    && |despues| == |antes|
    && forall e :: 0 <= e < |antes| ==> despues[e] == antes[e] || (antes[e] == PENDING && despues[e] == PROCESSED)
  }

  class Tienda {
    var estados: seq<Estado>

    constructor (eventos: nat)
      ensures estados == seq(eventos, _ => PENDING)
    {
      estados := seq(eventos, _ => PENDING);
    }

    /** Claims the oldest PENDING rows, and all of them when they fit. */
    method ClaimBatch(limite: nat) returns (ids: seq<nat>)
      modifies this
      ensures |ids| <= limite
      ensures forall i, j :: 0 <= i < j < |ids| ==> ids[i] < ids[j]
      ensures |estados| == |old(estados)|
      ensures forall i :: 0 <= i < |ids| ==> ids[i] < |estados| && old(estados)[ids[i]] == PENDING
      ensures forall e :: e in Esperando(old(estados)) && e !in ids ==>
                |ids| == limite && forall i :: 0 <= i < |ids| ==> ids[i] < e
      ensures forall e :: 0 <= e < |estados| ==> estados[e] == if e in ids then PUBLISHING else old(estados)[e]
    {
      ids := [];
      for n := 0 to |estados|
        invariant |ids| <= limite && |estados| == |old(estados)|
        invariant forall i :: 0 <= i < |ids| ==> ids[i] < n && old(estados)[ids[i]] == PENDING
        invariant forall i, j :: 0 <= i < j < |ids| ==> ids[i] < ids[j]
        invariant forall e :: 0 <= e < n && old(estados)[e] == PENDING && e !in ids ==>
                    |ids| == limite && forall i :: 0 <= i < |ids| ==> ids[i] < e
        invariant forall e :: 0 <= e < |estados| ==> estados[e] == if e in ids then PUBLISHING else old(estados)[e]
      {
        if estados[n] == PENDING && |ids| < limite {
          ids := ids + [n];
          estados := estados[n := PUBLISHING];
        }
      }
    }

    method MarkProcessed(ids: seq<nat>)
      requires forall n :: 0 <= n < |ids| ==> ids[n] < |estados|
      modifies this
      ensures |estados| == |old(estados)|
      ensures forall e :: 0 <= e < |estados| ==> estados[e] == if e in ids then PROCESSED else old(estados)[e]
    {
      for n := 0 to |ids|
        invariant |estados| == |old(estados)|
        invariant forall e :: 0 <= e < |estados| ==> estados[e] == if e in ids[..n] then PROCESSED else old(estados)[e]
      {
        assert ids[..n + 1] == ids[..n] + [ids[n]];
        estados := estados[ids[n] := PROCESSED];
      }
      assert ids[..|ids|] == ids;
    }

    /** The rescue of rows whose claim is older than a minute; `viejas` tells which. */
    method Rescatar(viejas: set<nat>) returns (rescatados: nat)
      modifies this
      ensures |estados| == |old(estados)| && rescatados == |Huerfanas(old(estados), viejas)|
      ensures forall e: nat :: e < |estados| ==>
                estados[e] == if e in Huerfanas(old(estados), viejas) then PENDING else old(estados)[e]
    {
      rescatados := 0;
      ghost var antes := estados;
      for n := 0 to |estados|
        invariant |estados| == |antes| && rescatados == |Huerfanas(antes[..n], viejas)|
        invariant forall e: nat :: e < |estados| ==>
                    estados[e] == if e in Huerfanas(antes[..n], viejas) then PENDING else antes[e]
      {
        assert Huerfanas(antes[..n + 1], viejas)
               == Huerfanas(antes[..n], viejas) + if antes[n] == PUBLISHING && n in viejas then {n} else {};
        if estados[n] == PUBLISHING && n in viejas {
          estados := estados[n := PENDING];
          rescatados := rescatados + 1;
        }
      }
      assert antes[..|antes|] == antes;
    }

    /** One turn of the worker: claim, note who claimed, mark. */
    method Vuelta(claimedBy: map<nat, seq<string>>, worker: string, limite: nat)
        returns (n: nat, r: map<nat, seq<string>>)
      requires limite >= 1
      modifies this
      ensures Drenado(old(estados), estados)
      ensures Anotados(claimedBy, r, old(estados), estados, worker)
      ensures if n == 0 then Esperando(old(estados)) == {} else |Esperando(estados)| < |Esperando(old(estados))|
    {
      var ids := ClaimBatch(limite);
      n, r := |ids|, claimedBy;
      if n == 0 {
        assert forall e :: e !in ids;
        return;
      }
      r := AnotarLote(r, ids, worker);
      MarkProcessed(ids);
      LoteFuera(old(estados), estados, ids);
      LoteAnotado(claimedBy, r, old(estados), estados, ids, worker);
    }

    /** One worker draining alone: every row that was PENDING ends PROCESSED with this worker's name
        once more in claimedBy, and no other row or name changes. */
    method DrainWorker(claimedBy: map<nat, seq<string>>, worker: string, limite: nat) returns (r: map<nat, seq<string>>)
      requires limite >= 1
      modifies this
      ensures |estados| == |old(estados)|
      ensures forall e :: 0 <= e < |estados| ==>
                estados[e] == if old(estados)[e] == PENDING then PROCESSED else old(estados)[e]
      ensures Anotados(claimedBy, r, old(estados), estados, worker)
    {
      r := claimedBy;
      var empties := 0;
      while empties < 3
        invariant empties <= 3 && Drenado(old(estados), estados)
        invariant empties > 0 ==> Esperando(estados) == {}
        invariant Anotados(claimedBy, r, old(estados), estados, worker)
        decreases |Esperando(estados)|, 3 - empties
      {
        ghost var antes, anotados := estados, r;
        var n;
        n, r := Vuelta(r, worker, limite);
        empties := if n == 0 then empties + 1 else 0;
        AnotadosEnDosVeces(claimedBy, anotados, r, old(estados), antes, estados, worker);
        if n == 0 { NadaQueDrenar(antes, estados); }
      }
      forall e: nat | e < |estados| ensures estados[e] != PENDING { assert e !in Esperando(estados); }
    }
  }

  lemma LoteAnotado(a: map<nat, seq<string>>, b: map<nat, seq<string>>, antes: seq<Estado>, despues: seq<Estado>,
                    ids: seq<nat>, worker: string)
    requires |antes| == |despues| && forall i :: 0 <= i < |ids| ==> ids[i] < |antes| && antes[ids[i]] == PENDING
    requires forall e :: 0 <= e < |antes| ==> despues[e] == if e in ids then PROCESSED else antes[e]
    requires forall id: nat :: Nombres(b, id) == Nombres(a, id) + if id in ids then [worker] else []
    ensures Anotados(a, b, antes, despues, worker)
  {
    forall id: nat ensures Movida(antes, despues, id) <==> id in ids {}
  }

  lemma NadaQueDrenar(antes: seq<Estado>, despues: seq<Estado>)
    requires Drenado(antes, despues) && Esperando(antes) == {}
    ensures Esperando(despues) == {} && despues == antes
  {
    forall e: nat | e < |antes| ensures despues[e] == antes[e] { assert e !in Esperando(antes); }
  }

  /** A claimed and marked batch leaves the waiting rows. */
  lemma LoteFuera(antes: seq<Estado>, despues: seq<Estado>, ids: seq<nat>)
    requires |antes| == |despues| && |ids| > 0
    requires forall i :: 0 <= i < |ids| ==> ids[i] < |antes| && antes[ids[i]] == PENDING
    requires forall e :: 0 <= e < |antes| ==> despues[e] == if e in ids then PROCESSED else antes[e]
    ensures Esperando(despues) == Esperando(antes) - Conjunto(ids)
    ensures |Esperando(despues)| < |Esperando(antes)|
    ensures Drenado(antes, despues)
  {
    assert ids[0] in Conjunto(ids);
    assert Conjunto(ids) <= Esperando(antes);
    assert |Esperando(antes) - Conjunto(ids)| == |Esperando(antes)| - |Conjunto(ids)|;
  }

  method AnotarLote(claimedBy: map<nat, seq<string>>, ids: seq<nat>, worker: string) returns (r: map<nat, seq<string>>)
    requires forall i, j :: 0 <= i < j < |ids| ==> ids[i] < ids[j]
    ensures forall id: nat :: Nombres(r, id) == Nombres(claimedBy, id) + if id in ids then [worker] else []
  {
    r := claimedBy;
    for n := 0 to |ids|
      invariant forall id: nat :: Nombres(r, id) == Nombres(claimedBy, id) + if id in ids[..n] then [worker] else []
    {
      assert ids[..n + 1] == ids[..n] + [ids[n]];
      assert ids[n] !in ids[..n];
      r := r[ids[n] := Nombres(r, ids[n]) + [worker]];
    }
    assert ids[..|ids|] == ids;
  }
}
