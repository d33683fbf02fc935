/** Cached table metadata: what storing, reading and invalidating do, and what schema hashes guarantee over runs. */
module MetadataCache {
  import opened Text
  import opened Json
  import opened MetadataKeys
  import opened ConnectionIdentity

  /** Structures, foreign keys and primary keys are cached apart, under the same keys. */
  datatype Kind = Structure | ForeignKeys | PrimaryKeys

  type Entries = map<string, string>

  datatype State = State(structures: Entries, foreignKeys: Entries, primaryKeys: Entries, hashes: map<string, string>) {
    function Of(kind: Kind): Entries {
      match kind
      case Structure => structures
      case ForeignKeys => foreignKeys
      case PrimaryKeys => primaryKeys
    }

    function With(kind: Kind, entries: Entries): State {
      match kind
      case Structure => this.(structures := entries)
      case ForeignKeys => this.(foreignKeys := entries)
      case PrimaryKeys => this.(primaryKeys := entries)
    }
  }

  const EMPTY := State(map[], map[], map[], map[])

  // ----- The operations -----

  function Stored(s: State, kind: Kind, c: Connection, table: string, value: string): State {
    s.With(kind, s.Of(kind)[Key(c, table) := value])
  }

  function Cached(s: State, kind: Kind, c: Connection, table: string): Option<string> {
    if Key(c, table) in s.Of(kind) then Some(s.Of(kind)[Key(c, table)]) else None
  }

  /** The entries whose key does not hold the probe. */
  function Without(m: Entries, probe: string): Entries {
    map k | k in m && !Includes(k, probe) :: m[k]
  }

  function Invalidated(s: State, c: Connection): State {
    State(Without(s.structures, Probe(c)), Without(s.foreignKeys, Probe(c)), Without(s.primaryKeys, Probe(c)), s.hashes)
  }

  function KnownHash(s: State, c: Connection): string {
    if Identifier(c) in s.hashes then s.hashes[Identifier(c)] else ""
  }

  /** A hash is compared with the known one; an empty known hash counts as none. */
  function Validated(s: State, c: Connection, hash: string): State {
    var known := KnownHash(s, c);
    if known != "" && known != hash then
      var t := Invalidated(s, c);
      t.(hashes := t.hashes[Identifier(c) := hash])
    else if known == "" then s.(hashes := s.hashes[Identifier(c) := hash])
    else s
  }

  predicate Unchanged(s: State, c: Connection, hash: string) {
    KnownHash(s, c) == "" || KnownHash(s, c) == hash
  }

  // ----- The storage -----

  class LRUStorage {
    var tableStructureCache: Entries
    var tableForeignKeysCache: Entries
    var tablePrimaryKeysCache: Entries
    var schemaHashCache: map<string, string>

    ghost function Abs(): State
      reads this
    {
      State(tableStructureCache, tableForeignKeysCache, tablePrimaryKeysCache, schemaHashCache)
    }

    constructor ()
      ensures Abs() == EMPTY
    {
      tableStructureCache, tableForeignKeysCache, tablePrimaryKeysCache, schemaHashCache := map[], map[], map[], map[];
    }

    method SetTableCache(kind: Kind, c: Connection, table: string, value: string)
      modifies this
      ensures Abs() == Stored(old(Abs()), kind, c, table, value)
    {
      hide Key;
      var cacheObj := Key(c, table);
      match kind {
        case Structure => tableStructureCache := tableStructureCache[cacheObj := value];
        case ForeignKeys => tableForeignKeysCache := tableForeignKeysCache[cacheObj := value];
        case PrimaryKeys => tablePrimaryKeysCache := tablePrimaryKeysCache[cacheObj := value];
      }
    }

    method GetTableCache(kind: Kind, c: Connection, table: string) returns (found: Option<string>)
      ensures found == Cached(Abs(), kind, c, table)
    {
      var cacheObj := Key(c, table);
      var cache := match kind
        case Structure => tableStructureCache
        case ForeignKeys => tableForeignKeysCache
        case PrimaryKeys => tablePrimaryKeysCache;
      found := if cacheObj in cache then Some(cache[cacheObj]) else None;
    }

    /** The loop over a cache's keys that deletes those holding the probe. */
    static method DeleteMatching(cache: Entries, probe: string) returns (left: Entries)
      ensures left == Without(cache, probe)
    {
      left := cache;
      var keys := cache.Keys;
      while keys != {}
        invariant keys <= cache.Keys
        invariant forall k :: k in left <==> k in cache && (k in keys || !Includes(k, probe))
        invariant forall k :: k in left ==> left[k] == cache[k]
        decreases keys
      {
        var key :| key in keys;
        keys := keys - {key};
        if Includes(key, probe) {
          left := left - {key};
        }
      }
    }

    method InvalidateConnectionTableMetadata(c: Connection)
      modifies this
      ensures Abs() == Invalidated(old(Abs()), c)
    {
      hide Probe, Includes;
      var connectionStr := Probe(c);
      tableStructureCache := DeleteMatching(tableStructureCache, connectionStr);
      tableForeignKeysCache := DeleteMatching(tableForeignKeysCache, connectionStr);
      tablePrimaryKeysCache := DeleteMatching(tablePrimaryKeysCache, connectionStr);
    }

    method ValidateSchemaHashAndInvalidate(c: Connection, currentHash: string) returns (same: bool)
      modifies this
      ensures Abs() == Validated(old(Abs()), c, currentHash)
      ensures same == Unchanged(old(Abs()), c, currentHash)
    {
      hide Identifier, Probe, Includes, Without;
      var connectionId := Identifier(c);
      var cachedHash := if connectionId in schemaHashCache then schemaHashCache[connectionId] else "";
      if cachedHash != "" && cachedHash != currentHash {
        InvalidateConnectionTableMetadata(c);
        schemaHashCache := schemaHashCache[connectionId := currentHash];
        return false;
      }
      if cachedHash == "" {
        schemaHashCache := schemaHashCache[connectionId := currentHash];
      }
      same := true;
    }
  }

  // ----- Invalidation is exact -----

  lemma KeyInjective(c: Connection, t: string, d: Connection, u: string)
    requires AllWellFormed(c) && AllWellFormed(d)
    ensures Key(c, t) == Key(d, u) <==> c == d && t == u
  {
    if Key(c, t) == Key(d, u) {
      ProbeIsPrefix(d, u);
      ProbeAtStart(c, t, d);
      hide Opening, ObjectText, Quoted, WellFormed;
      OpeningCancel(ObjectText(c) + TableTail(t), ObjectText(c) + TableTail(u));
      ObjectCancel(c, c, TableTail(t), TableTail(u));
      TailInjective(t, u);
    }
  }

  /** What is stored is found under its own cache, connection and table, and under no other. */
  lemma StoreExact(s: State, kind: Kind, c: Connection, t: string, value: string, kind': Kind, d: Connection, u: string)
    requires AllWellFormed(c) && AllWellFormed(d)
    ensures Cached(Stored(s, kind, c, t, value), kind', d, u) ==
            if (kind, c, t) == (kind', d, u) then Some(value) else Cached(s, kind', d, u)
  {
    KeyInjective(c, t, d, u);
    hide Key, AllWellFormed;
  }

  lemma TailInjective(t: string, u: string)
    requires TableTail(t) == TableTail(u)
    ensures t == u
  {
    var p := "," + (Quoted(TABLE) + ":");
    hide Quoted;
    Assoc(",", Quoted(TABLE) + ":", Quoted(t) + "}");
    Assoc(Quoted(TABLE), ":", Quoted(t) + "}");
    Assoc(",", Quoted(TABLE) + ":", Quoted(u) + "}");
    Assoc(Quoted(TABLE), ":", Quoted(u) + "}");
    assert (p + (Quoted(t) + "}"))[|p|..] == Quoted(t) + "}" && (p + (Quoted(u) + "}"))[|p|..] == Quoted(u) + "}";
    QuotedCancel(t, u, "}", "}");
  }

  /** Invalidating a connection empties it, for every table, in all three caches, and leaves every
      other connection's entries alone, however similar its fields are. */
  lemma InvalidationIsExact(s: State, c: Connection, kind: Kind, d: Connection, table: string)
    requires AllWellFormed(c) && AllWellFormed(d)
    ensures Cached(Invalidated(s, c), kind, d, table) == if c == d then None else Cached(s, kind, d, table)
  {
    IncludesIsOwn(d, table, c);
    hide Includes, Key, Probe, AllWellFormed;
  }

  /** Validating drops metadata only of the validated connection, and only when its hash changed. */
  lemma ValidationIsExact(s: State, c: Connection, hash: string, kind: Kind, d: Connection, table: string)
    requires AllWellFormed(c) && AllWellFormed(d)
    ensures Cached(Validated(s, c, hash), kind, d, table) ==
            if c == d && !Unchanged(s, c, hash) then None else Cached(s, kind, d, table)
  {
    InvalidationIsExact(s, c, kind, d, table);
    hide Identifier, Key, AllWellFormed, Probe, Includes, Without;
  }

  // ----- Runs -----

  datatype Event =
    | Store(kind: Kind, connection: Connection, table: string, value: string)
    | Validate(connection: Connection, hash: string)
    | Drop(cache: Kind, key: string)
    | DropHash(id: string)

  /** `Drop` and `DropHash` are entries that a cache evicts or lets expire. */
  function After(s: State, e: Event): State {
    match e
    case Store(kind, c, table, value) => Stored(s, kind, c, table, value)
    case Validate(c, hash) => Validated(s, c, hash)
    case Drop(kind, key) => s.With(kind, map k | k in s.Of(kind) && k != key :: s.Of(kind)[k])
    case DropHash(id) => s.(hashes := s.hashes - {id})
  }

  function StateAt(events: seq<Event>): State {
    if |events| == 0 then EMPTY else After(StateAt(events[..|events| - 1]), events[|events| - 1])
  }

  /** Event `i` observes that the schema of `c` changed. */
  predicate ChangeAt(events: seq<Event>, i: nat, c: Connection)
    requires i < |events|
  {
    events[i].Validate? && Identifier(events[i].connection) == Identifier(c) &&
    !Unchanged(StateAt(events[..i]), events[i].connection, events[i].hash)
  }

  /** Validations of other connections do not use the identifier of `c`. */
  predicate IdentifierIsOwn(events: seq<Event>, c: Connection) {
    forall i :: 0 <= i < |events| && events[i].Validate? && Identifier(events[i].connection) == Identifier(c)
                ==> events[i].connection == c
  }

  predicate EventWellFormed(e: Event) {
    e.Store? || e.Validate? ==> AllWellFormed(e.connection)
  }

  predicate AllEventsWellFormed(events: seq<Event>) {
    forall i :: 0 <= i < |events| ==> EventWellFormed(events[i])
  }

  /** The metadata cached for a table was stored by an event after which no schema change was seen. */
  predicate Fresh(events: seq<Event>, kind: Kind, c: Connection, table: string, value: string) {
    exists j :: 0 <= j < |events| && events[j] == Store(kind, c, table, value) &&
                forall i :: j < i < |events| ==> !ChangeAt(events, i, c)
  }

  /** Over every run: what is returned for a connection that shares its identifier with no other was
      stored after the last schema change that was observed. */
  lemma {:induction false} MetadataIsFresh(events: seq<Event>, kind: Kind, c: Connection, table: string)
    requires AllEventsWellFormed(events) && AllWellFormed(c) && IdentifierIsOwn(events, c)
    requires Cached(StateAt(events), kind, c, table).Some?
    ensures Fresh(events, kind, c, table, Cached(StateAt(events), kind, c, table).value)
  {
    hide *;
    StateUnfold(events, kind, c, table);
    InitHolds(events, c);
    var init, last := events[..|events| - 1], events[|events| - 1];
    var value := Cached(StateAt(events), kind, c, table).value;
    if last == Store(kind, c, table, value) {
      JustStored(events, kind, c, table, value);
    } else {
      KeptBy(StateAt(init), last, kind, c, table);
      MetadataIsFresh(init, kind, c, table);
      NoChangeAtLast(events, kind, c, table);
      FreshLonger(events, kind, c, table, value);
    }
  }

  lemma InitHolds(events: seq<Event>, c: Connection)
    requires AllEventsWellFormed(events) && IdentifierIsOwn(events, c) && events != []
    ensures AllEventsWellFormed(events[..|events| - 1]) && IdentifierIsOwn(events[..|events| - 1], c)
    ensures EventWellFormed(events[|events| - 1])
  {
    hide Identifier, EventWellFormed;
  }

  lemma JustStored(events: seq<Event>, kind: Kind, c: Connection, table: string, value: string)
    requires events != [] && events[|events| - 1] == Store(kind, c, table, value)
    ensures Fresh(events, kind, c, table, value)
  {
    hide ChangeAt;
  }

  lemma StateUnfold(events: seq<Event>, kind: Kind, c: Connection, table: string)
    ensures Cached(StateAt(events), kind, c, table).Some? ==> events != []
    ensures events == [] || StateAt(events) == After(StateAt(events[..|events| - 1]), events[|events| - 1])
  {}

  lemma EarlierChange(events: seq<Event>, i: nat, c: Connection)
    requires i + 1 < |events|
    ensures ChangeAt(events, i, c) <==> ChangeAt(events[..|events| - 1], i, c)
  {
    hide Identifier, StateAt, Unchanged;
    assert events[..|events| - 1][..i] == events[..i];
  }

  /** Freshness lasts through an event that is no change for the connection. */
  lemma FreshLonger(events: seq<Event>, kind: Kind, c: Connection, table: string, value: string)
    requires events != [] && !ChangeAt(events, |events| - 1, c)
    requires Fresh(events[..|events| - 1], kind, c, table, value)
    ensures Fresh(events, kind, c, table, value)
  {
    hide ChangeAt;
    var init := events[..|events| - 1];
    var j :| 0 <= j < |init| && init[j] == Store(kind, c, table, value) && forall i :: j < i < |init| ==> !ChangeAt(init, i, c);
    forall i | j < i < |events|
      ensures !ChangeAt(events, i, c)
    {
      if i < |init| {
        EarlierChange(events, i, c);
      }
    }
    assert events[j] == Store(kind, c, table, value);
  }

  /** Sharing an identifier defeats this: a change seen through one connection drops only that one's
      metadata, and the other then passes for unchanged. It is dropped exactly when they are the same. */
  lemma StaleExactlyWhenShared(c: Connection, d: Connection, kind: Kind, table: string, value: string, before: string, after: string)
    requires AllWellFormed(c) && AllWellFormed(d) && Identifier(c) == Identifier(d)
    requires before != "" && after != "" && before != after
    ensures var events := [Validate(c, before), Store(kind, c, table, value), Validate(d, after)];
            && Cached(StateAt(events), kind, c, table) == (if c == d then None else Some(value))
            && Unchanged(StateAt(events), c, after)
  {
    hide Identifier, Key, AllWellFormed, Probe, Includes;
    var e1 := [Validate(c, before)];
    var e2 := e1 + [Store(kind, c, table, value)];
    var e3 := e2 + [Validate(d, after)];
    var s2 := StateAt(e2);
    assert StateAt([]) == EMPTY && e1[..|e1| - 1] == [] && e2[..|e2| - 1] == e1 && e3[..|e3| - 1] == e2;
    assert StateAt(e1) == After(EMPTY, e1[0]);
    assert s2 == After(After(EMPTY, e1[0]), e2[1]);
    assert KnownHash(s2, d) == before && Cached(s2, kind, c, table) == Some(value);
    assert StateAt(e3) == Validated(s2, d, after);
    InvalidationIsExact(s2, d, kind, c, table);
    assert e3 == [Validate(c, before), Store(kind, c, table, value), Validate(d, after)];
  }

  /** Such a run: two connections that differ in their password only. What was stored for the first one
      before the schema changed is still returned, and passes for unchanged. */
  lemma StalePassword(kind: Kind, table: string, value: string, before: string, after: string)
    requires before != "" && after != "" && before != after
    ensures var c, d := WithPassword("x"), WithPassword("y");
            var events := [Validate(c, before), Store(kind, c, table, value), Validate(d, after)];
            && c != d && Cached(StateAt(events), kind, c, table) == Some(value)
            && ChangeAt(events, 2, d) && Unchanged(StateAt(events), c, after)
  {
    var c, d := WithPassword("x"), WithPassword("y");
    PasswordIsUnseen("x", "y");
    PasswordIsUnseen("y", "x");
    hide *;
    StaleExactlyWhenShared(c, d, kind, table, value, before, after);
    SecondIsChange(c, d, kind, table, value, before, after);
  }

  lemma SecondIsChange(c: Connection, d: Connection, kind: Kind, table: string, value: string, before: string, after: string)
    requires Identifier(c) == Identifier(d) && before != "" && before != after
    ensures ChangeAt([Validate(c, before), Store(kind, c, table, value), Validate(d, after)], 2, d)
  {
    var events := [Validate(c, before), Store(kind, c, table, value), Validate(d, after)];
    hide Identifier, Key, Includes, Probe, Without;
    var e1 := [Validate(c, before)];
    var e2 := e1 + [Store(kind, c, table, value)];
    var s2 := Stored(Validated(EMPTY, c, before), kind, c, table, value);
    assert StateAt([]) == EMPTY && e1[..0] == [] && e2[..1] == e1;
    assert StateAt(e1) == Validated(EMPTY, c, before);
    assert StateAt(e2) == s2;
    assert KnownHash(s2, d) == before;
    assert events[..2] == e2;
    hide StateAt, KnownHash, Validated, Stored;
  }

  /** So does losing the hash: the next validation then takes any hash for unchanged, and drops nothing.
      Metadata outlives a change exactly when the hash was lost in between. */
  lemma StaleExactlyWhenHashLost(c: Connection, kind: Kind, table: string, value: string, before: string, after: string, lost: bool)
    requires AllWellFormed(c) && before != "" && after != "" && before != after
    ensures var between := if lost then [DropHash(Identifier(c))] else [];
            var events := [Validate(c, before), Store(kind, c, table, value)] + between + [Validate(c, after)];
            Cached(StateAt(events), kind, c, table) == if lost then Some(value) else None
  {
    hide Identifier, Key, AllWellFormed, Probe, Includes;
    var between := if lost then [DropHash(Identifier(c))] else [];
    var e1 := [Validate(c, before)];
    var e2 := e1 + [Store(kind, c, table, value)];
    var e3 := e2 + between;
    var s2 := Stored(Validated(EMPTY, c, before), kind, c, table, value);
    var s3 := if lost then After(s2, DropHash(Identifier(c))) else s2;
    assert StateAt([]) == EMPTY && e1[..0] == [] && e2[..1] == e1 && (e3 + [Validate(c, after)])[..|e3|] == e3;
    assert StateAt(e1) == Validated(EMPTY, c, before);
    assert StateAt(e2) == s2;
    assert lost ==> e3[..2] == e2;
    assert !lost ==> e3 == e2;
    assert StateAt(e3) == s3;
    assert [Validate(c, before), Store(kind, c, table, value)] + between + [Validate(c, after)] == e3 + [Validate(c, after)];
    assert StateAt(e3 + [Validate(c, after)]) == Validated(s3, c, after);
    InvalidationIsExact(s3, c, kind, c, table);
  }

  /** Metadata that is cached after an event, and was not stored by it, was cached before with the same value. */
  lemma KeptBy(s: State, e: Event, kind: Kind, c: Connection, table: string)
    requires EventWellFormed(e) && AllWellFormed(c) && Cached(After(s, e), kind, c, table).Some?
    requires e != Store(kind, c, table, Cached(After(s, e), kind, c, table).value)
    ensures Cached(s, kind, c, table) == Cached(After(s, e), kind, c, table)
  {
    hide Identifier, Key, AllWellFormed, Probe, Includes;
    match e
    case Store(k, d, t, v) =>
      KeyInjective(c, table, d, t);
    case Validate(d, hash) =>
      InvalidationIsExact(s, d, kind, c, table);
    case _ =>
  }

  /** After an observed change nothing is cached for the connection, so the last event was none. */
  lemma NoChangeAtLast(events: seq<Event>, kind: Kind, c: Connection, table: string)
    requires events != [] && AllEventsWellFormed(events) && AllWellFormed(c) && IdentifierIsOwn(events, c)
    requires Cached(StateAt(events), kind, c, table).Some?
    ensures !ChangeAt(events, |events| - 1, c)
  {
    var i := |events| - 1;
    hide Identifier, Key, AllWellFormed, Probe, Includes;
    if ChangeAt(events, i, c) {
      assert events[i].connection == c;
      InvalidationIsExact(StateAt(events[..i]), c, kind, c, table);
      assert false;
    }
  }

  /** The hash last validated under an identifier, unless the cache has dropped it since. */
  function LastHash(events: seq<Event>, id: string): string {
    if |events| == 0 then ""
    else
      var e := events[|events| - 1];
      if e.Validate? && Identifier(e.connection) == id then e.hash
      else if e == DropHash(id) then ""
      else LastHash(events[..|events| - 1], id)
  }

  lemma {:induction false} KnownHashIsLast(events: seq<Event>, c: Connection)
    requires forall i :: 0 <= i < |events| && events[i].Validate? ==> events[i].hash != ""
    ensures KnownHash(StateAt(events), c) == LastHash(events, Identifier(c))
  {
    if |events| > 0 {
      var init, last := events[..|events| - 1], events[|events| - 1];
      assert forall i :: 0 <= i < |init| ==> init[i] == events[i];
      assert last.Validate? ==> last.hash != "";
      KnownHashIsLast(init, c);
      assert StateAt(events) == After(StateAt(init), last);
      hide Identifier, StateAt, KnownHash;
      HashAfter(StateAt(init), last, c);
    }
  }

  lemma HashAfter(s: State, e: Event, c: Connection)
    requires e.Validate? ==> e.hash != ""
    ensures KnownHash(After(s, e), c) ==
            if e.Validate? && Identifier(e.connection) == Identifier(c) then e.hash
            else if e == DropHash(Identifier(c)) then ""
            else KnownHash(s, c)
  {
    hide Identifier, Key, Probe, Includes, Without;
  }

  /** Validation answers `false` exactly when the hash differs from the last one validated under the
      same identifier. */
  lemma ChangeIsDifferentHash(events: seq<Event>, c: Connection, hash: string)
    requires forall i :: 0 <= i < |events| && events[i].Validate? ==> events[i].hash != ""
    ensures Unchanged(StateAt(events), c, hash) <==> LastHash(events, Identifier(c)) in {"", hash}
  {
    KnownHashIsLast(events, c);
    hide Identifier, StateAt, LastHash;
  }
}
