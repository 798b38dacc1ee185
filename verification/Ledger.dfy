/** The outbox and its dispatcher: append once, post, audit, mark. */
module Ledger {
  import opened Base
  import opened Records

  // --- Dedup keys ---

  function AggText(a: Aggregate): (t: string)
    ensures '.' !in t
  {
    match a
    case AggBatch => "batch"
    case AggAggregate => "aggregate"
    case AggFunding => "funding"
    case AggFloat => "float"
    case AggRebalance => "rebalance"
  }

  function EventText(e: EventType): (t: string)
    ensures ':' !in t
  {
    match e
    case EvBatchOpen => "batch.open"
    case EvBatchClose => "batch.close"
    case EvAggregateExec => "aggregate.execute"
    case EvFunding => "funding.create"
    case EvFloatAdjust => "float.adjust"
    case EvRebalance => "rebalance.create"
  }

  function Key(a: Aggregate, e: EventType, id: string): string {
    AggText(a) + "." + EventText(e) + ":" + id
  }

  lemma SeparatorSplits(x: string, x': string, sep: char, y: string, y': string)
    requires sep !in x && sep !in x' && x + [sep] + y == x' + [sep] + y'
    ensures x == x' && y == y'
  {
    var s, s' := x + [sep] + y, x' + [sep] + y';
    assert s[|x|] == sep && s'[|x'|] == sep;
    assert forall k :: 0 <= k < |x| ==> s[k] == x[k] && x[k] in x;
    assert forall k :: 0 <= k < |x'| ==> s'[k] == x'[k] && x'[k] in x';
    assert |x| == |x'|;
    assert s[..|x|] == x && s'[..|x'|] == x' && s[|x| + 1..] == y && s'[|x'| + 1..] == y';
  }

  lemma AggTextInjective(a: Aggregate, a': Aggregate)
    requires AggText(a) == AggText(a')
    ensures a == a'
  {
    assert |AggText(a)| == |AggText(a')| && AggText(a)[0] == AggText(a')[0];
  }

  lemma EventTextInjective(e: EventType, e': EventType)
    requires EventText(e) == EventText(e')
    ensures e == e'
  {
    assert |EventText(e)| == |EventText(e')|;
  }

  lemma KeyTextSplits(x: string, x': string, y: string, y': string, z: string, z': string)
    requires '.' !in x && '.' !in x' && ':' !in y && ':' !in y'
    requires x + "." + y + ":" + z == x' + "." + y' + ":" + z'
    ensures x == x' && y == y' && z == z'
  {
    assert x + ['.'] + (y + [':'] + z) == x + "." + y + ":" + z;
    assert x' + ['.'] + (y' + [':'] + z') == x' + "." + y' + ":" + z';
    SeparatorSplits(x, x', '.', y + [':'] + z, y' + [':'] + z');
    SeparatorSplits(y, y', ':', z, z');
  }

  /** Two events share a dedup key only when aggregate, type and identifier agree. */
  lemma KeyInjective(a: Aggregate, e: EventType, m: nat, a': Aggregate, e': EventType, n: nat)
    requires Key(a, e, IdText(m)) == Key(a', e', IdText(n))
    ensures a == a' && e == e' && m == n
  {
    KeyTextSplits(AggText(a), AggText(a'), EventText(e), EventText(e'), IdText(m), IdText(n));
    AggTextInjective(a, a');
    EventTextInjective(e, e');
    IdTextInjective(m, n);
  }

  // --- Outbox table ---

  function Appended(rows: seq<OutboxEntry>, seen: set<string>, key: string, p: Payload): seq<OutboxEntry> {
    if key in seen then rows else rows + [OutboxEntry(|rows|, key, p, None)]
  }

  predicate Pending(e: OutboxEntry) {
    e.emittedAt == None
  }

  /** How many of the first n rows are pending. */
  function PendingCount(rows: seq<OutboxEntry>, n: nat): nat
    requires n <= |rows|
  {
    if n == 0 then 0 else PendingCount(rows, n - 1) + if Pending(rows[n - 1]) then 1 else 0
  }

  /** A list limit below one still lists one entry, because the loop appends before it compares. */
  predicate Listed(rows: seq<OutboxEntry>, limit: int, i: nat)
    requires i < |rows|
  {
    Pending(rows[i]) && PendingCount(rows, i) < Max(1, limit)
  }

  function ListedRows(rows: seq<OutboxEntry>, limit: int, n: nat): seq<OutboxEntry>
    requires n <= |rows|
  {
    if n == 0 then [] else ListedRows(rows, limit, n - 1) + if Listed(rows, limit, n - 1) then [rows[n - 1]] else []
  }

  ghost predicate OutboxIds(rows: seq<OutboxEntry>) {
    forall i :: 0 <= i < |rows| ==> rows[i].id == i
  }

  lemma {:induction false} PendingCountGrows(rows: seq<OutboxEntry>, m: nat, n: nat)
    requires m <= n <= |rows|
    ensures PendingCount(rows, m) <= PendingCount(rows, n)
  {
    if m < n {
      PendingCountGrows(rows, m, n - 1);
    }
  }

  lemma {:induction false} NothingListedPast(rows: seq<OutboxEntry>, limit: int, m: nat, n: nat)
    requires m <= n <= |rows| && PendingCount(rows, m) >= Max(1, limit)
    ensures ListedRows(rows, limit, n) == ListedRows(rows, limit, m)
  {
    if m < n {
      NothingListedPast(rows, limit, m, n - 1);
      PendingCountGrows(rows, m, n - 1);
    }
  }

  class OutboxStore {
    var rows: seq<OutboxEntry>
    var seen: set<string>

    ghost predicate Valid() reads this {
      OutboxIds(rows)
    }

    constructor ()
      ensures Valid() && rows == [] && seen == {}
    {
      rows, seen := [], {};
    }

    method Append(key: string, p: Payload) returns (added: bool)
      requires Valid()
      modifies this
      ensures Valid() && added == (key !in old(seen))
      ensures rows == Appended(old(rows), old(seen), key, p)
      ensures seen == old(seen) + {key}
    {
      if key in seen {
        return false;
      }
      seen := seen + {key};
      rows := rows + [OutboxEntry(|rows|, key, p, None)];
      return true;
    }

    method ListPending(limit: int) returns (out: seq<OutboxEntry>)
      ensures out == ListedRows(rows, limit, |rows|)
    {
      out := [];
      for i := 0 to |rows|
        invariant out == ListedRows(rows, limit, i)
        invariant |out| == PendingCount(rows, i) && (i == 0 || |out| < Max(1, limit))
      {
        if Pending(rows[i]) {
          out := out + [rows[i]];
          if |out| >= limit {
            NothingListedPast(rows, limit, i + 1, |rows|);
            break;
          }
        }
      }
    }

    method MarkEmitted(id: nat, now: Time) returns (found: bool)
      requires Valid()
      modifies this`rows
      ensures Valid() && found == (id < |old(rows)|)
      ensures rows == if id < |old(rows)| then old(rows)[id := old(rows)[id].(emittedAt := Some(now))] else old(rows)
    {
      for i := 0 to |rows|
        invariant unchanged(this) && id >= i
      {
        if rows[i].id == id {
          rows := rows[i := rows[i].(emittedAt := Some(now))];
          return true;
        }
      }
      return false;
    }
  }

  // --- Dispatch ---

  /** A downstream reply; a lost reply is an error although the request took effect. */
  datatype Reply = Accepted | LostReply | Rejected

  datatype Fate = Fate(ledger: Reply, audit: Reply, markOk: bool)

  datatype LedgerPost = LedgerPost(
    aggregate: Aggregate, eventType: EventType, notionalUSD: Decimal, asset: string, fiatCurrency: string,
    batchId: Option<nat>)

  datatype AuditEvent = AuditEvent(aggregate: Aggregate, eventType: EventType, batchId: Option<nat>, detail: string)

  datatype Posting = Posting(key: string, content: LedgerPost, reply: Reply)

  datatype Emission = Emission(key: string, content: AuditEvent, reply: Reply)

  function PostOf(p: Payload): LedgerPost {
    LedgerPost(p.aggregate, p.eventType, p.notionalUSD, p.asset, p.fiatCurrency, p.batchId)
  }

  function AuditOf(p: Payload): AuditEvent {
    AuditEvent(p.aggregate, p.eventType, p.batchId, p.detail)
  }

  /** Which downstream clients are configured; a missing client is skipped. */
  datatype Clients = Clients(ledger: bool, audit: bool)

  predicate Posted(c: Clients, f: Fate) {
    c.ledger ==> f.ledger == Accepted
  }

  predicate Delivered(c: Clients, f: Fate) {
    Posted(c, f) && (c.audit ==> f.audit == Accepted) && f.markOk
  }

  type Fates = nat -> Fate

  /** The rows after the listed ones among the first n were processed. */
  function Dispatched(
      c: Clients, rows: seq<OutboxEntry>, limit: int, fates: Fates, now: Time, n: nat): (r: seq<OutboxEntry>)
    requires n <= |rows|
    ensures |r| == |rows|
  {
    seq(|rows|, i requires 0 <= i < |rows| =>
      if i < n && Listed(rows, limit, i) && Delivered(c, fates(i))
      then rows[i].(emittedAt := Some(now)) else rows[i])
  }

  function PostsMade(c: Clients, rows: seq<OutboxEntry>, limit: int, fates: Fates, n: nat): seq<Posting>
    requires n <= |rows|
  {
    if n == 0 then []
    else
      PostsMade(c, rows, limit, fates, n - 1)
      + if c.ledger && Listed(rows, limit, n - 1)
        then [Posting(rows[n - 1].dedupKey, PostOf(rows[n - 1].payload), fates(n - 1).ledger)] else []
  }

  function EmissionsMade(c: Clients, rows: seq<OutboxEntry>, limit: int, fates: Fates, n: nat): seq<Emission>
    requires n <= |rows|
  {
    if n == 0 then []
    else
      EmissionsMade(c, rows, limit, fates, n - 1)
      + if c.audit && Listed(rows, limit, n - 1) && Posted(c, fates(n - 1))
        then [Emission(rows[n - 1].dedupKey, AuditOf(rows[n - 1].payload), fates(n - 1).audit)] else []
  }

  function DeliveredCount(c: Clients, rows: seq<OutboxEntry>, limit: int, fates: Fates, n: nat): nat
    requires n <= |rows|
  {
    if n == 0 then 0
    else
      DeliveredCount(c, rows, limit, fates, n - 1)
      + if Listed(rows, limit, n - 1) && Delivered(c, fates(n - 1)) then 1 else 0
  }

  /** Delivered entries are the ones that leave the pending list. */
  lemma {:induction false} DeliveredLeave(
    c: Clients, rows: seq<OutboxEntry>, limit: int, fates: Fates, now: Time, n: nat)
    requires n <= |rows|
    ensures PendingCount(Dispatched(c, rows, limit, fates, now, |rows|), n)
         == PendingCount(rows, n) - DeliveredCount(c, rows, limit, fates, n)
  {
    if n > 0 {
      DeliveredLeave(c, rows, limit, fates, now, n - 1);
    }
  }

  lemma {:induction false} ListedPrefix(rows: seq<OutboxEntry>, limit: int, m: nat, n: nat)
    requires m <= n <= |rows|
    ensures ListedRows(rows, limit, m) <= ListedRows(rows, limit, n)
  {
    if m < n {
      ListedPrefix(rows, limit, m, n - 1);
    }
  }

  /** Rows that are not listed change nothing. */
  lemma {:induction false} SkipUnlisted(
    c: Clients, rows: seq<OutboxEntry>, limit: int, fates: Fates, now: Time, m: nat, n: nat)
    requires m <= n <= |rows| && |ListedRows(rows, limit, m)| == |ListedRows(rows, limit, n)|
    ensures ListedRows(rows, limit, m) == ListedRows(rows, limit, n)
    ensures Dispatched(c, rows, limit, fates, now, m) == Dispatched(c, rows, limit, fates, now, n)
    ensures PostsMade(c, rows, limit, fates, m) == PostsMade(c, rows, limit, fates, n)
    ensures EmissionsMade(c, rows, limit, fates, m) == EmissionsMade(c, rows, limit, fates, n)
    ensures DeliveredCount(c, rows, limit, fates, m) == DeliveredCount(c, rows, limit, fates, n)
  {
    if m < n {
      ListedPrefix(rows, limit, m, n - 1);
      SkipUnlisted(c, rows, limit, fates, now, m, n - 1);
    }
  }

  /** A listed row is marked when it is delivered. */
  lemma StepListed(c: Clients, rows: seq<OutboxEntry>, limit: int, fates: Fates, now: Time, m: nat)
    requires m < |rows| && Listed(rows, limit, m)
    ensures Dispatched(c, rows, limit, fates, now, m)[m] == rows[m]
    ensures Dispatched(c, rows, limit, fates, now, m + 1)
         == if Delivered(c, fates(m))
            then Dispatched(c, rows, limit, fates, now, m)[m := rows[m].(emittedAt := Some(now))]
            else Dispatched(c, rows, limit, fates, now, m)
  {
  }

  lemma NothingYet(c: Clients, rows: seq<OutboxEntry>, limit: int, fates: Fates, now: Time)
    ensures Dispatched(c, rows, limit, fates, now, 0) == rows && ListedRows(rows, limit, 0) == []
    ensures PostsMade(c, rows, limit, fates, 0) == [] && EmissionsMade(c, rows, limit, fates, 0) == []
    ensures DeliveredCount(c, rows, limit, fates, 0) == 0
  {
  }

  lemma NextListed(rows: seq<OutboxEntry>, limit: int, m: nat) returns (n: nat)
    requires m <= |rows| && |ListedRows(rows, limit, m)| < |ListedRows(rows, limit, |rows|)|
    ensures m <= n < |rows| && Listed(rows, limit, n)
    ensures |ListedRows(rows, limit, n)| == |ListedRows(rows, limit, m)|
  {
    n := m;
    while !Listed(rows, limit, n)
      invariant m <= n < |rows| && |ListedRows(rows, limit, n)| == |ListedRows(rows, limit, m)|
      decreases |rows| - n
    {
      n := n + 1;
    }
  }

  /** The next listed entry after the first n rows, and what processing it adds. */
  lemma Advance(c: Clients, rows: seq<OutboxEntry>, limit: int, fates: Fates, now: Time, n: nat) returns (m: nat)
    requires n <= |rows| && |ListedRows(rows, limit, n)| < |ListedRows(rows, limit, |rows|)|
    ensures n <= m < |rows| && ListedRows(rows, limit, |rows|)[|ListedRows(rows, limit, n)|] == rows[m]
    ensures ListedRows(rows, limit, m + 1) == ListedRows(rows, limit, n) + [rows[m]]
    ensures Dispatched(c, rows, limit, fates, now, n)[m] == rows[m]
    ensures Dispatched(c, rows, limit, fates, now, m + 1)
         == if Delivered(c, fates(m))
            then Dispatched(c, rows, limit, fates, now, n)[m := rows[m].(emittedAt := Some(now))]
            else Dispatched(c, rows, limit, fates, now, n)
    ensures PostsMade(c, rows, limit, fates, m + 1) == PostsMade(c, rows, limit, fates, n)
      + if c.ledger then [Posting(rows[m].dedupKey, PostOf(rows[m].payload), fates(m).ledger)] else []
    ensures EmissionsMade(c, rows, limit, fates, m + 1) == EmissionsMade(c, rows, limit, fates, n)
      + if c.audit && Posted(c, fates(m))
        then [Emission(rows[m].dedupKey, AuditOf(rows[m].payload), fates(m).audit)] else []
    ensures DeliveredCount(c, rows, limit, fates, m + 1)
         == DeliveredCount(c, rows, limit, fates, n) + if Delivered(c, fates(m)) then 1 else 0
  {
    m := NextListed(rows, limit, n);
    SkipUnlisted(c, rows, limit, fates, now, n, m);
    StepListed(c, rows, limit, fates, now, m);
    ListedPrefix(rows, limit, m + 1, |rows|);
  }

  /** What the ledger and the audit log were asked, in order. */
  class Downstream {
    var posts: seq<Posting>
    var emissions: seq<Emission>

    constructor ()
      ensures posts == [] && emissions == []
    {
      posts, emissions := [], [];
    }

    method Post(key: string, content: LedgerPost, reply: Reply) returns (ok: bool)
      modifies this`posts
      ensures posts == old(posts) + [Posting(key, content, reply)] && ok == (reply == Accepted)
    {
      posts := posts + [Posting(key, content, reply)];
      ok := reply == Accepted;
    }

    method Emit(key: string, content: AuditEvent, reply: Reply) returns (ok: bool)
      modifies this`emissions
      ensures emissions == old(emissions) + [Emission(key, content, reply)] && ok == (reply == Accepted)
    {
      emissions := emissions + [Emission(key, content, reply)];
      ok := reply == Accepted;
    }
  }

  class Emitter {
    const outbox: OutboxStore
    const clients: Clients
    const downstream: Downstream

    constructor (outbox: OutboxStore, clients: Clients, downstream: Downstream)
      ensures this.outbox == outbox && this.clients == clients && this.downstream == downstream
    {
      this.outbox, this.clients, this.downstream := outbox, clients, downstream;
    }

    method Append(a: Aggregate, e: EventType, key: string, p: Payload)
      requires outbox.Valid()
      modifies outbox
      ensures outbox.Valid()
      ensures outbox.rows
           == Appended(old(outbox.rows), old(outbox.seen), key, p.(aggregate := a, eventType := e))
      ensures outbox.seen == old(outbox.seen) + {key}
    {
      var _ := outbox.Append(key, p.(aggregate := a, eventType := e));
    }

    /** The loop body of Dispatch for one listed entry. */
    method Process(ent: OutboxEntry, f: Fate, now: Time) returns (delivered: bool)
      requires outbox.Valid() && ent.id < |outbox.rows|
      modifies outbox`rows, downstream
      ensures outbox.Valid() && delivered == Delivered(clients, f)
      ensures outbox.rows == if delivered
                             then old(outbox.rows)[ent.id := old(outbox.rows)[ent.id].(emittedAt := Some(now))]
                             else old(outbox.rows)
      ensures downstream.posts == old(downstream.posts)
        + if clients.ledger then [Posting(ent.dedupKey, PostOf(ent.payload), f.ledger)] else []
      ensures downstream.emissions == old(downstream.emissions)
        + if clients.audit && Posted(clients, f) then [Emission(ent.dedupKey, AuditOf(ent.payload), f.audit)] else []
    {
      if clients.ledger {
        var ok := downstream.Post(ent.dedupKey, PostOf(ent.payload), f.ledger);
        if !ok {
          return false;
        }
      }
      if clients.audit {
        var ok := downstream.Emit(ent.dedupKey, AuditOf(ent.payload), f.audit);
        if !ok {
          return false;
        }
      }
      if !f.markOk {
        return false;
      }
      delivered := outbox.MarkEmitted(ent.id, now);
    }

    /** One pass over the listed entries; the count returned is how many left the pending list. */
    method Dispatch(limit: int, fates: Fates, now: Time) returns (processed: nat)
      requires outbox.Valid()
      modifies outbox`rows, downstream
      ensures outbox.Valid()
      ensures var before := old(outbox.rows);
              && outbox.rows == Dispatched(clients, before, limit, fates, now, |before|)
              && downstream.posts == old(downstream.posts) + PostsMade(clients, before, limit, fates, |before|)
              && downstream.emissions
                 == old(downstream.emissions) + EmissionsMade(clients, before, limit, fates, |before|)
              && processed == PendingCount(before, |before|) - PendingCount(outbox.rows, |before|)
    {
      hide Dispatched, PostsMade, EmissionsMade, DeliveredCount, ListedRows, PendingCount;
      ghost var rows := outbox.rows;
      var pending := outbox.ListPending(limit);
      processed := 0;
      ghost var n: nat := 0;
      NothingYet(clients, rows, limit, fates, now);
      for j := 0 to |pending|
        invariant n <= |rows| && pending[..j] == ListedRows(rows, limit, n)
        invariant outbox.Valid() && outbox.rows == Dispatched(clients, rows, limit, fates, now, n)
        invariant downstream.posts == old(downstream.posts) + PostsMade(clients, rows, limit, fates, n)
        invariant downstream.emissions == old(downstream.emissions) + EmissionsMade(clients, rows, limit, fates, n)
        invariant processed == DeliveredCount(clients, rows, limit, fates, n)
      {
        ghost var m := Advance(clients, rows, limit, fates, now, n);
        var ent := pending[j];
        assert ent == rows[m] && ent.id == m;
        assert pending[..j + 1] == pending[..j] + [ent];
        n := m + 1;
        var delivered := Process(ent, fates(ent.id), now);
        if delivered {
          processed := processed + 1;
        }
      }
      SkipUnlisted(clients, rows, limit, fates, now, n, |rows|);
      DeliveredLeave(clients, rows, limit, fates, now, |rows|);
    }
  }
}
