/** Payload versions: registration of complete upcaster chains, and upcasting. */
module SchemaRegistry {
  import opened PaymentCore

  type Payload = string

  /** An upcaster may fail; what counts as well-formed JSON is left open. */
  type Upcaster = Payload -> Option<Payload>
  type WellFormed = Payload -> bool

  /** An occurrence time of 0 is Go's zero time. */
  datatype Event = Event(id: string, kind: string, version: int, aggregateId: string, aggregateType: string, occurredAt: int, payload: Payload) {
    predicate Valid(wellFormed: WellFormed) {
      id != "" && kind != "" && aggregateId != "" && aggregateType != "" && version >= 1 && occurredAt != 0 && wellFormed(payload)
    }
  }

  datatype Schema = Schema(latest: int, upcasters: map<int, Upcaster>) {
    /** There is an upcaster for every version below the latest, and for no other. */
    ghost predicate Complete() {
      latest >= 1 && forall v :: v in upcasters <==> 1 <= v < latest
    }
  }

  // ---- Specification ----------------------------------------------------------

  ghost predicate Covers(upcasters: map<int, Upcaster>, from: int, target: int) {
    forall v | from <= v < target :: v in upcasters
  }

  /** The composition of the upcasters of versions from, ..., target - 1. */
  function Chain(upcasters: map<int, Upcaster>, wellFormed: WellFormed, from: int, target: int, payload: Payload): Option<Payload>
    requires from <= target && Covers(upcasters, from, target)
    decreases target - from
  {
    if from == target then Some(payload)
    else
      var stepped := upcasters[from](payload);
      if stepped.None? || !wellFormed(stepped.value) then None
      else Chain(upcasters, wellFormed, from + 1, target, stepped.value)
  }

  function Upcasted(schema: Schema, wellFormed: WellFormed, event: Event): Option<Event>
    requires schema.Complete()
  {
    if !event.Valid(wellFormed) || event.version > schema.latest then None
    else
      var payload := Chain(schema.upcasters, wellFormed, event.version, schema.latest, event.payload);
      if payload.None? then None else Some(event.(version := schema.latest, payload := payload.value))
  }

  /** A chain may be cut anywhere. */
  lemma {:induction false} ChainSplits(upcasters: map<int, Upcaster>, wellFormed: WellFormed, from: int, mid: int, target: int, payload: Payload)
    requires from <= mid <= target && Covers(upcasters, from, target)
    ensures var first := Chain(upcasters, wellFormed, from, mid, payload);
      Chain(upcasters, wellFormed, from, target, payload) == if first.None? then None else Chain(upcasters, wellFormed, mid, target, first.value)
    decreases mid - from
  {
    if from < mid {
      var stepped := upcasters[from](payload);
      if stepped.Some? && wellFormed(stepped.value) {
        ChainSplits(upcasters, wellFormed, from + 1, mid, target, stepped.value);
      }
    }
  }

  lemma {:induction false} ChainWellFormed(upcasters: map<int, Upcaster>, wellFormed: WellFormed, from: int, target: int, payload: Payload)
    requires from <= target && Covers(upcasters, from, target) && wellFormed(payload)
    ensures var end := Chain(upcasters, wellFormed, from, target, payload); end.Some? ==> wellFormed(end.value)
    decreases target - from
  {
    if from < target {
      var stepped := upcasters[from](payload);
      if stepped.Some? && wellFormed(stepped.value) {
        ChainWellFormed(upcasters, wellFormed, from + 1, target, stepped.value);
      }
    }
  }

  /** Chains that share their steps agree. */
  lemma {:induction false} ChainsAgree(a: map<int, Upcaster>, b: map<int, Upcaster>, wellFormed: WellFormed, from: int, target: int, payload: Payload)
    requires from <= target && Covers(a, from, target) && Covers(b, from, target) && forall v | from <= v < target :: a[v] == b[v]
    ensures Chain(a, wellFormed, from, target, payload) == Chain(b, wellFormed, from, target, payload)
    decreases target - from
  {
    if from < target {
      var stepped := a[from](payload);
      if stepped.Some? && wellFormed(stepped.value) {
        ChainsAgree(a, b, wellFormed, from + 1, target, stepped.value);
      }
    }
  }

  /** Upcasting an upcasted event changes nothing. */
  lemma UpcastingIsIdempotent(schema: Schema, wellFormed: WellFormed, event: Event)
    requires schema.Complete() && Upcasted(schema, wellFormed, event).Some?
    ensures Upcasted(schema, wellFormed, Upcasted(schema, wellFormed, event).value) == Upcasted(schema, wellFormed, event)
  {
    ChainWellFormed(schema.upcasters, wellFormed, event.version, schema.latest, event.payload);
  }

  /** The newer schema has every step of the older one. */
  ghost predicate Continues(older: Schema, newer: Schema) {
    && older.Complete() && newer.Complete() && older.latest <= newer.latest
    && forall v | 1 <= v < older.latest :: newer.upcasters[v] == older.upcasters[v]
  }

  /** Going through an older registry first gives the same event, and fails in no more and
      no fewer cases. */
  lemma UpcastingThroughOlderAgrees(older: Schema, newer: Schema, wellFormed: WellFormed, event: Event)
    requires Continues(older, newer) && event.version <= older.latest
    ensures var first := Upcasted(older, wellFormed, event);
      Upcasted(newer, wellFormed, event) == if first.None? then None else Upcasted(newer, wellFormed, first.value)
  {
    if event.Valid(wellFormed) {
      ChainsAgree(older.upcasters, newer.upcasters, wellFormed, event.version, older.latest, event.payload);
      ChainSplits(newer.upcasters, wellFormed, event.version, older.latest, newer.latest, event.payload);
      ChainWellFormed(older.upcasters, wellFormed, event.version, older.latest, event.payload);
    }
  }

  // ---- The registry -----------------------------------------------------------

  lemma NotEmpty(versions: set<int>)
    requires versions != {}
    ensures exists v :: v in versions
  {
    assert (forall v :: v !in versions) ==> versions == {};
  }

  class Registry {
    const wellFormed: WellFormed
    var schemas: map<string, Schema>

    constructor (wellFormed: WellFormed)
      ensures Valid() && schemas == map[] && this.wellFormed == wellFormed
    {
      this.wellFormed := wellFormed;
      schemas := map[];
    }

    /** Every registered schema has a complete chain. */
    ghost predicate Valid()
      reads this
    {
      forall kind | kind in schemas :: schemas[kind].Complete()
    }

    /** The loop over the given upcasters: None if one is out of range or nil. */
    method CopySteps(latest: int, upcasters: map<int, Option<Upcaster>>) returns (steps: Option<map<int, Upcaster>>)
      ensures steps.Some? <==> forall v | v in upcasters :: 1 <= v < latest && upcasters[v].Some?
      ensures steps.Some? ==> steps.value.Keys == upcasters.Keys && forall v | v in upcasters :: steps.value[v] == upcasters[v].value
    {
      var copied: map<int, Upcaster> := map[];
      var rest := upcasters.Keys;
      while rest != {}
        invariant rest <= upcasters.Keys && copied.Keys == upcasters.Keys - rest
        invariant forall v | v in copied :: 1 <= v < latest && upcasters[v].Some? && copied[v] == upcasters[v].value
        decreases |rest|
      {
        NotEmpty(rest);
        var v :| v in rest;
        if v < 1 || v >= latest || upcasters[v].None? {
          return None;
        }
        copied := copied[v := upcasters[v].value];
        rest := rest - {v};
      }
      steps := Some(copied);
    }

    /** Register accepts exactly the complete chains for types not yet registered. */
    method Register(kind: string, latest: int, upcasters: map<int, Option<Upcaster>>) returns (ok: bool)
      requires Valid()
      modifies this
      ensures Valid()
      ensures ok <==>
        && kind != "" && latest >= 1 && kind !in old(schemas)
        && (forall v :: v in upcasters <==> 1 <= v < latest) && (forall v | v in upcasters :: upcasters[v].Some?)
      ensures !ok ==> schemas == old(schemas)
      ensures ok ==>
        && kind in schemas && schemas == old(schemas)[kind := schemas[kind]] && schemas[kind].latest == latest
        && forall v | 1 <= v < latest :: schemas[kind].upcasters[v] == upcasters[v].value
    {
      if kind == "" || latest < 1 {
        return false;
      }
      var steps := CopySteps(latest, upcasters);
      if steps.None? {
        return false;
      }
      var version := 1;
      while version < latest
        invariant 1 <= version <= latest
        invariant forall v | 1 <= v < version :: v in steps.value
      {
        if version !in steps.value {
          return false;
        }
        version := version + 1;
      }
      if kind in schemas {
        return false;
      }
      schemas := schemas[kind := Schema(latest, steps.value)];
      ok := true;
    }

    /** Upcast never meets a missing step, and applies the remaining upcasters in turn. */
    method Upcast(event: Event) returns (result: Option<Event>)
      requires Valid()
      ensures result == if event.kind in schemas then Upcasted(schemas[event.kind], wellFormed, event) else None
    {
      if !event.Valid(wellFormed) || event.kind !in schemas || event.version > schemas[event.kind].latest {
        return None;
      }
      var schema := schemas[event.kind];
      var version, payload := event.version, event.payload;
      while version < schema.latest
        invariant event.version <= version <= schema.latest
        invariant Chain(schema.upcasters, wellFormed, version, schema.latest, payload)
               == Chain(schema.upcasters, wellFormed, event.version, schema.latest, event.payload)
      {
        var stepped := schema.upcasters[version](payload);
        if stepped.None? || !wellFormed(stepped.value) {
          return None;
        }
        payload := stepped.value;
        version := version + 1;
      }
      result := Some(event.(version := version, payload := payload));
    }
  }
}
