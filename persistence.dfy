/**
 * Offline persistence and the remote backend bridge (js/services/persistence.js):
 * the outbox of records waiting to be sent, the single-flight sync pass that
 * drains it, the field defaults applied when a stored state is loaded, and the
 * two pure mappers used when records are sent to the remote backend.
 */
module Persistence {
  import opened Wrappers
  import opened State

  /** A queued record: the outbox store assigns `id` from its auto-increment key generator. */
  datatype OutboxEntry = OutboxEntry(id: nat, kind: string, payload: LedgerEvent, createdAt: string, synced: bool)

  /** Ids strictly increase along the queue: it is kept in key order. */
  predicate IncreasingIds(s: seq<OutboxEntry>) {
    forall i, j :: 0 <= i < j < |s| ==> s[i].id < s[j].id
  }

  /** The queue after the entry stored under `id` is deleted. */
  function Without(s: seq<OutboxEntry>, id: nat): (r: seq<OutboxEntry>)
    ensures |r| <= |s|
    ensures forall e :: e in r <==> e in s && e.id != id
  {
    if s == [] then []
    else (if s[0].id == id then [] else [s[0]]) + Without(s[1..], id)
  }

  /** Deleting an id that is not queued leaves the queue as it is. */
  lemma {:induction false} WithoutAbsent(s: seq<OutboxEntry>, id: nat)
    requires forall e :: e in s ==> e.id != id
    ensures Without(s, id) == s
  {
    if s != [] {
      WithoutAbsent(s[1..], id);
    }
  }

  /** Deleting the id at the head of an ordered queue removes exactly the head. */
  lemma DeleteHead(s: seq<OutboxEntry>)
    requires s != [] && IncreasingIds(s)
    ensures Without(s, s[0].id) == s[1..]
  {
    forall e | e in s[1..] ensures e.id != s[0].id {
      var j :| 0 <= j < |s[1..]| && s[1..][j] == e;
      assert s[j + 1] == e;
    }
    WithoutAbsent(s[1..], s[0].id);
  }

  /** The outbox store, the database handle and the `syncRunning` flag. */
  class SyncService {
    var dbOpen: bool
    var outbox: seq<OutboxEntry>
    var nextId: nat
    var syncRunning: bool

    ghost predicate Valid()
      reads this
    {
      IncreasingIds(outbox) && forall e :: e in outbox ==> e.id < nextId
    }

    /** An empty outbox; the key generator starts at 1. */
    constructor (dbOpen: bool)
      ensures Valid() && this.dbOpen == dbOpen && outbox == [] && nextId == 1 && !syncRunning
    {
      this.dbOpen := dbOpen;
      outbox := [];
      nextId := 1;
      syncRunning := false;
    }

    /** `dbDeleteOutbox`: removes the entry stored under `id`. */
    method DeleteOutbox(id: nat)
      requires Valid()
      modifies this
      ensures Valid()
      ensures outbox == Without(old(outbox), id)
      ensures dbOpen == old(dbOpen) && nextId == old(nextId) && syncRunning == old(syncRunning)
    {
      WithoutIncreasing(outbox, id);
      outbox := Without(outbox, id);
    }

    /** `dbDeleteOutbox` on the entry at the head of the queue: the queue loses exactly its head. */
    method DeleteDelivered(id: nat)
      requires Valid() && outbox != [] && outbox[0].id == id
      modifies this
      ensures Valid() && outbox == old(outbox)[1..]
      ensures dbOpen == old(dbOpen) && nextId == old(nextId) && syncRunning == old(syncRunning)
    {
      DeleteHead(outbox);
      DeleteOutbox(id);
    }

    /**
     * `trySync`: one pass over the outbox when online, the database is open
     * and no pass is running. `listed` says whether reading the outbox
     * succeeds; a failed read ends the pass before anything is sent.
     * Entries are sent in queue order with `deliver` standing for the POST
     * and `remove` for the delete that follows it. Either failing ends the
     * pass. `delivered` lists what was sent and deleted; `stranded` says the
     * pass ended on an entry that was sent but whose delete failed, so it
     * stays at the head of the outbox and the next pass sends it again.
     */
    method TrySync(online: bool, listed: bool, deliver: OutboxEntry -> bool, remove: OutboxEntry -> bool)
      returns (delivered: seq<OutboxEntry>, stranded: bool)
      requires Valid()
      modifies this
      ensures Valid()
      ensures !online || !old(dbOpen) || old(syncRunning) || !listed ==> delivered == [] && outbox == old(outbox)
      ensures delivered + outbox == old(outbox)
      ensures forall e :: e in delivered ==> deliver(e) && remove(e)
      ensures online && old(dbOpen) && !old(syncRunning) && listed && outbox != [] ==>
        !deliver(outbox[0]) || !remove(outbox[0])
      ensures stranded <==> online && old(dbOpen) && !old(syncRunning) && listed && outbox != [] && deliver(outbox[0])
      ensures syncRunning == old(syncRunning)
      ensures dbOpen == old(dbOpen) && nextId == old(nextId)
    {
      delivered := [];
      stranded := false;
      if !online {
        return;
      }
      if !dbOpen {
        return;
      }
      if syncRunning {
        return;
      }
      syncRunning := true;
      if !listed {
        syncRunning := false;
        return;
      }
      var out := outbox;
      var i := 0;
      while i < |out|
        invariant 0 <= i <= |out|
        invariant Valid() && dbOpen == old(dbOpen) && nextId == old(nextId) && syncRunning
        invariant outbox == out[i..] && delivered == out[..i]
        invariant forall k :: 0 <= k < i ==> deliver(out[k]) && remove(out[k])
        invariant !stranded
      {
        var item := out[i];
        if !deliver(item) {
          break;
        }
        if !remove(item) {
          stranded := true;
          break;
        }
        DeleteDelivered(item.id);
        delivered := delivered + [item];
        i := i + 1;
      }
      assert delivered + outbox == out by {
        assert out[..i] + out[i..] == out;
      }
      syncRunning := false;
    }

    /**
     * `enqueueSync`: stamps the record unsynced, stores it under the next
     * key and starts a sync pass; nothing happens without a database.
     */
    method EnqueueSync(kind: string, payload: LedgerEvent, createdAt: string, online: bool, listed: bool,
                       deliver: OutboxEntry -> bool, remove: OutboxEntry -> bool)
      returns (delivered: seq<OutboxEntry>, stranded: bool)
      requires Valid()
      modifies this
      ensures Valid()
      ensures !old(dbOpen) ==> delivered == [] && outbox == old(outbox) && nextId == old(nextId)
      ensures old(dbOpen) ==>
        delivered + outbox == old(outbox) + [OutboxEntry(old(nextId), kind, payload, createdAt, false)]
        && nextId == old(nextId) + 1
      ensures forall e :: e in delivered ==> deliver(e) && remove(e)
      ensures stranded ==> outbox != [] && deliver(outbox[0])
      ensures syncRunning == old(syncRunning) && dbOpen == old(dbOpen)
    {
      if !dbOpen {
        return [], false;
      }
      var entry := OutboxEntry(nextId, kind, payload, createdAt, false);
      outbox := outbox + [entry];
      nextId := nextId + 1;
      delivered, stranded := TrySync(online, listed, deliver, remove);
    }
  }

  /** Deleting an entry keeps the remaining ones in key order. */
  lemma {:induction false} WithoutIncreasing(s: seq<OutboxEntry>, id: nat)
    requires IncreasingIds(s)
    ensures IncreasingIds(Without(s, id))
  {
    if s != [] {
      TailIncreasing(s);
      WithoutIncreasing(s[1..], id);
      if s[0].id == id {
        assert Without(s, id) == Without(s[1..], id);
      } else {
        assert Without(s, id) == [s[0]] + Without(s[1..], id);
        ConsIncreasing(s[0], Without(s[1..], id));
      }
    }
  }

  /** The tail of an ordered queue is ordered, and every id in it exceeds the head's. */
  lemma TailIncreasing(s: seq<OutboxEntry>)
    requires s != [] && IncreasingIds(s)
    ensures IncreasingIds(s[1..])
    ensures forall e :: e in s[1..] ==> s[0].id < e.id
  {
    forall e | e in s[1..] ensures s[0].id < e.id {
      var k :| 0 <= k < |s[1..]| && s[1..][k] == e;
      assert s[k + 1] == e;
    }
  }

  /** An entry whose id is below every id of an ordered queue can be put in front of it. */
  lemma ConsIncreasing(x: OutboxEntry, rest: seq<OutboxEntry>)
    requires IncreasingIds(rest)
    requires forall e :: e in rest ==> x.id < e.id
    ensures IncreasingIds([x] + rest)
  {
    var r := [x] + rest;
    forall i, j | 0 <= i < j < |r| ensures r[i].id < r[j].id {
      if i == 0 {
        assert r[j] in rest;
      } else {
        assert r[i] == rest[i - 1] && r[j] == rest[j - 1];
      }
    }
  }

  // The remote payment-type vocabulary.
  const DINHEIRO: string := "dinheiro"
  const PIX: string := "pix"
  const CARTAO: string := "cartao"

  /**
   * The payment type sent for a supplier payment: local and remote spellings
   * both map to the remote one, and anything else (or "" for a missing type)
   * falls back to cash.
   */
  function RemotePaymentType(paymentType: string): (r: string)
    ensures r == PIX <==> paymentType == "external" || paymentType == "pix"
    ensures r == CARTAO <==> paymentType == "card" || paymentType == "cartao"
    ensures r == DINHEIRO <==> !(paymentType in {"external", "pix", "card", "cartao"})
  {
    if paymentType == "" then DINHEIRO
    else if paymentType == "cash" || paymentType == DINHEIRO then DINHEIRO
    else if paymentType == "external" || paymentType == PIX then PIX
    else if paymentType == "card" || paymentType == CARTAO then CARTAO
    else DINHEIRO
  }

  // ---- turn sync ----

  // The remote turn-type vocabulary.
  const MANHA: string := "manha"
  const TARDE: string := "tarde"

  /**
   * A local turn as handed to the turn sync: `tipo` is the remote spelling,
   * `turnType` the local `type`; "" and 0.0 stand for missing fields.
   */
  datatype TurnRecord = TurnRecord(tipo: string, turnType: string, valorInicial: real, initialValue: real)

  /** The open turn the backend reports, if any. */
  datatype RemoteTurn = RemoteTurn(id: string, tipo: string)

  datatype TurnSyncAction =
    | SkipInvalid
    | ReuseOpen(existing: RemoteTurn)
    | CreateTurn(tipo: string, initialValue: real)

  /** The remote tipo of a turn: its own `tipo`, else derived from its local type. */
  function DerivedTipo(t: TurnRecord): (r: string)
    ensures t.tipo != "" ==> r == t.tipo
    ensures t.tipo == "" ==> (r == MANHA <==> t.turnType == MORNING) && (r == TARDE <==> t.turnType != MORNING)
  {
    if t.tipo != "" then t.tipo else if t.turnType == MORNING then MANHA else TARDE
  }

  /** The opening amount sent: the first non-zero of the two spellings, else 0. */
  function OpeningAmount(t: TurnRecord): (r: real)
    ensures r != 0.0 ==> r == t.valorInicial || r == t.initialValue
    ensures r == 0.0 <==> t.valorInicial == 0.0 && t.initialValue == 0.0
  {
    if t.valorInicial != 0.0 then t.valorInicial else t.initialValue
  }

  /**
   * `syncTurnoToSupabase` as written: the open remote turn is reused only when
   * its tipo equals the turn's own `tipo` field, compared before derivation.
   */
  function TurnSyncAsWritten(turn: Option<TurnRecord>, open: Option<RemoteTurn>): (a: TurnSyncAction)
    ensures a.SkipInvalid? <==> turn.None? || (turn.value.tipo == "" && turn.value.turnType == "")
    ensures a.ReuseOpen? ==> open.Some? && a.existing == open.value && a.existing.tipo == turn.value.tipo
    ensures a.CreateTurn? ==> a == CreateTurn(DerivedTipo(turn.value), OpeningAmount(turn.value))
  {
    if turn.None? || (turn.value.tipo == "" && turn.value.turnType == "") then SkipInvalid
    else if open.Some? && open.value.tipo == turn.value.tipo then ReuseOpen(open.value)
    else CreateTurn(DerivedTipo(turn.value), OpeningAmount(turn.value))
  }

  /** A turn started with only its local type, while the same turn is already open remotely, is created a second time. */
  lemma TurnSyncAsWrittenDuplicates()
    ensures TurnSyncAsWritten(Some(TurnRecord("", MORNING, 0.0, 0.0)), Some(RemoteTurn("1", MANHA)))
            == CreateTurn(MANHA, 0.0)
  {
  }

  /** The corrected decision: the open remote turn is compared with the derived tipo. */
  function TurnSync(turn: Option<TurnRecord>, open: Option<RemoteTurn>): (a: TurnSyncAction)
    ensures a.SkipInvalid? <==> turn.None? || (turn.value.tipo == "" && turn.value.turnType == "")
    ensures a.ReuseOpen? <==> !a.SkipInvalid? && open.Some? && open.value.tipo == DerivedTipo(turn.value)
    ensures a.ReuseOpen? ==> a.existing == open.value
    ensures a.CreateTurn? ==> a == CreateTurn(DerivedTipo(turn.value), OpeningAmount(turn.value))
  {
    if turn.None? || (turn.value.tipo == "" && turn.value.turnType == "") then SkipInvalid
    else if open.Some? && open.value.tipo == DerivedTipo(turn.value) then ReuseOpen(open.value)
    else CreateTurn(DerivedTipo(turn.value), OpeningAmount(turn.value))
  }

  /** The correction never creates a turn of the tipo that is already open remotely. */
  lemma TurnSyncNoDuplicate(turn: Option<TurnRecord>, open: Option<RemoteTurn>)
    requires open.Some?
    ensures TurnSync(turn, open).CreateTurn? ==> TurnSync(turn, open).tipo != open.value.tipo
  {
  }

  /** Both versions agree on every turn that carries its remote tipo. */
  lemma TurnSyncAgreesWhenTipoGiven(turn: TurnRecord, open: Option<RemoteTurn>)
    requires turn.tipo != ""
    ensures TurnSync(Some(turn), open) == TurnSyncAsWritten(Some(turn), open)
  {
  }

  // ---- loading the stored state ----

  /** A stored JSON value. */
  datatype Json =
    | JNull
    | JBool(b: bool)
    | JNum(n: real)
    | JStr(s: string)
    | JArr(elems: seq<Json>)
    | JObj(fields: map<string, Json>)

  /** JavaScript truthiness (NaN is not modelled). */
  predicate Truthy(v: Json) {
    match v
    case JNull => false
    case JBool(b) => b
    case JNum(n) => n != 0.0
    case JStr(s) => s != ""
    case JArr(_) => true
    case JObj(_) => true
  }

  /** The keys the loader copies out of the stored state. */
  const LOADED_KEYS: set<string> := {"cart", "total", "paymentMethod", "turnsData", "currentTurn", "receivedAmount"}

  /** The value a falsy stored key is replaced by. */
  function LoadDefault(key: string): (v: Json)
    requires key in LOADED_KEYS
    ensures key == "cart" ==> v == JArr([])
    ensures key == "total" || key == "receivedAmount" ==> v == JNum(0.0)
    ensures key == "paymentMethod" ==> v == JStr("")
    ensures key == "turnsData" ==> v == JObj(map[])
    ensures key == "currentTurn" ==> v == JNull
  {
    if key == "cart" then JArr([])
    else if key == "total" || key == "receivedAmount" then JNum(0.0)
    else if key == "paymentMethod" then JStr("")
    else if key == "turnsData" then JObj(map[])
    else JNull
  }

  /**
   * `loadAppState`: None (null) without a database or a stored state;
   * otherwise the globals it assigns, one per loaded key present in the
   * stored object, each the stored value or its default when that is falsy.
   */
  function LoadAppState(dbOpen: bool, stored: Option<Json>): (r: Option<map<string, Json>>)
    ensures r.Some? <==> dbOpen && stored.Some? && Truthy(stored.value)
    ensures r.Some? && stored.value.JObj? ==> r.value.Keys == LOADED_KEYS * stored.value.fields.Keys
    ensures r.Some? && !stored.value.JObj? ==> r.value == map[]
    ensures r.Some? ==> forall k :: k in r.value ==>
      k in LOADED_KEYS && stored.value.JObj? && k in stored.value.fields
      && (if Truthy(stored.value.fields[k]) then r.value[k] == stored.value.fields[k] else r.value[k] == LoadDefault(k))
  {
    if !dbOpen || stored.None? || !Truthy(stored.value) then None
    else match stored.value
      case JObj(fields) =>
        Some(map k | k in LOADED_KEYS && k in fields :: if Truthy(fields[k]) then fields[k] else LoadDefault(k))
      case _ => Some(map[])
  }

  /** Loading what a load produced gives it back: the defaults are fixed points. */
  lemma LoadIdempotent(stored: Json)
    requires LoadAppState(true, Some(stored)).Some?
    ensures LoadAppState(true, Some(JObj(LoadAppState(true, Some(stored)).value))) == LoadAppState(true, Some(stored))
  {
    var g := LoadAppState(true, Some(stored)).value;
    var g' := LoadAppState(true, Some(JObj(g))).value;
    forall k | k in g ensures g'[k] == g[k] {
      if !Truthy(g[k]) {
        assert g[k] == LoadDefault(k);
      }
    }
    assert g'.Keys == g.Keys;
    assert g' == g;
  }
}
