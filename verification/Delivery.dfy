/** Runs of the outbox: what reaches the ledger and the audit log, and how fast a backlog drains. */
module Delivery {
  import opened Base
  import opened Records
  import opened Ledger

  datatype Act = Append(key: string, payload: Payload) | Dispatch(limit: int, fates: Fates, now: Time)

  /** The outbox together with everything the two downstream services were asked. */
  datatype State = State(rows: seq<OutboxEntry>, seen: set<string>, posts: seq<Posting>, emissions: seq<Emission>)

  const EMPTY := State([], {}, [], [])

  function Step(c: Clients, s: State, a: Act): State {
    match a
    case Append(key, p) => s.(rows := Appended(s.rows, s.seen, key, p), seen := s.seen + {key})
    case Dispatch(limit, fates, now) =>
      s.(rows := Dispatched(c, s.rows, limit, fates, now, |s.rows|),
         posts := s.posts + PostsMade(c, s.rows, limit, fates, |s.rows|),
         emissions := s.emissions + EmissionsMade(c, s.rows, limit, fates, |s.rows|))
  }

  function Run(c: Clients, s: State, acts: seq<Act>): State
    decreases |acts|
  {
    if acts == [] then s else Run(c, Step(c, s, acts[0]), acts[1..])
  }

  // --- What a request carries ---

  /** A posting carries the entry's fields. */
  ghost predicate Carries(content: LedgerPost, p: Payload) {
    && content.aggregate == p.aggregate && content.eventType == p.eventType
    && content.notionalUSD == p.notionalUSD && content.asset == p.asset && content.fiatCurrency == p.fiatCurrency
    && content.batchId == p.batchId
  }

  /** An audit event carries the entry's fields. */
  ghost predicate Tells(content: AuditEvent, p: Payload) {
    && content.aggregate == p.aggregate && content.eventType == p.eventType
    && content.batchId == p.batchId && content.detail == p.detail
  }

  // --- One pass ---

  /** The rows without an emission time, in order. */
  function Waiting(rows: seq<OutboxEntry>): seq<OutboxEntry> {
    if rows == [] then []
    else
      var last := rows[|rows| - 1];
      Waiting(rows[..|rows| - 1]) + if last.emittedAt.None? then [last] else []
  }

  function Window(limit: int): nat {
    if limit < 1 then 1 else limit
  }

  /** The listing is the first rows that wait, as many as the limit says and at least one. */
  lemma {:induction false} ListsFirstWaiting(rows: seq<OutboxEntry>, limit: int, n: nat)
    requires n <= |rows|
    ensures |Waiting(rows[..n])| == PendingCount(rows, n)
    ensures var waiting := Waiting(rows[..n]);
            ListedRows(rows, limit, n) == if |waiting| <= Window(limit) then waiting else waiting[..Window(limit)]
  {
    if n > 0 {
      assert rows[..n][..n - 1] == rows[..n - 1];
      ListsFirstWaiting(rows, limit, n - 1);
    }
  }

  /** A pass posts each listed row once, in order, under the row's key and with the row's fields. */
  lemma {:induction false} PassPostsListed(c: Clients, rows: seq<OutboxEntry>, limit: int, fates: Fates, n: nat)
    requires n <= |rows| && c.ledger
    ensures var posts, listed := PostsMade(c, rows, limit, fates, n), ListedRows(rows, limit, n);
            && |posts| == |listed|
            && forall i :: 0 <= i < |listed| ==>
                 posts[i].key == listed[i].dedupKey && Carries(posts[i].content, listed[i].payload)
  {
    if n > 0 {
      PassPostsListed(c, rows, limit, fates, n - 1);
    }
  }

  /** A pass marks a row exactly when it waited, fewer rows than the limit waited before it, and everyone configured
      accepted it. It marks the row with the time of the pass and changes nothing else. */
  lemma PassMarks(c: Clients, rows: seq<OutboxEntry>, limit: int, fates: Fates, now: Time, i: nat)
    requires i < |rows|
    ensures var r := Dispatched(c, rows, limit, fates, now, |rows|)[i];
            r == if && rows[i].emittedAt.None? && |Waiting(rows[..i])| < Window(limit)
                    && (c.ledger ==> fates(i).ledger == Accepted) && (c.audit ==> fates(i).audit == Accepted)
                    && fates(i).markOk
                 then rows[i].(emittedAt := Some(now)) else rows[i]
  {
    ListsFirstWaiting(rows, limit, i);
    assert Listed(rows, limit, i) <==> rows[i].emittedAt.None? && |Waiting(rows[..i])| < Window(limit);
  }

  // --- The delivery chain ---

  ghost predicate HasRow(rows: seq<OutboxEntry>, key: string, content: LedgerPost) {
    exists i :: 0 <= i < |rows| && rows[i].dedupKey == key && Carries(content, rows[i].payload)
  }

  ghost predicate HasRowFor(rows: seq<OutboxEntry>, key: string, content: AuditEvent) {
    exists i :: 0 <= i < |rows| && rows[i].dedupKey == key && Tells(content, rows[i].payload)
  }

  ghost predicate PostAccepted(posts: seq<Posting>, key: string) {
    exists j :: 0 <= j < |posts| && posts[j].key == key && posts[j].reply == Accepted
  }

  ghost predicate AuditAccepted(emissions: seq<Emission>, key: string) {
    exists j :: 0 <= j < |emissions| && emissions[j].key == key && emissions[j].reply == Accepted
  }

  /** Rows carry distinct keys, exactly the seen ones. */
  ghost predicate KeysOk(s: State) {
    && (forall i :: 0 <= i < |s.rows| ==> s.rows[i].dedupKey in s.seen)
    && (forall i, j :: 0 <= i < j < |s.rows| ==> s.rows[i].dedupKey != s.rows[j].dedupKey)
  }

  ghost predicate PostsOk(s: State) {
    forall j :: 0 <= j < |s.posts| ==> HasRow(s.rows, s.posts[j].key, s.posts[j].content)
  }

  ghost predicate EmissionsOk(c: Clients, s: State) {
    forall j :: 0 <= j < |s.emissions| ==>
      && HasRowFor(s.rows, s.emissions[j].key, s.emissions[j].content)
      && (c.ledger ==> PostAccepted(s.posts, s.emissions[j].key))
  }

  ghost predicate EmittedOk(c: Clients, s: State) {
    forall i :: 0 <= i < |s.rows| && !Pending(s.rows[i]) ==>
      && (c.ledger ==> PostAccepted(s.posts, s.rows[i].dedupKey))
      && (c.audit ==> AuditAccepted(s.emissions, s.rows[i].dedupKey))
  }

  ghost predicate ChainOk(c: Clients, s: State) {
    KeysOk(s) && PostsOk(s) && EmissionsOk(c, s) && EmittedOk(c, s)
  }

  /** Each posting of a pass comes from a listed row, and each listed row is posted. */
  lemma {:induction false} PostsComeFromRows(c: Clients, rows: seq<OutboxEntry>, limit: int, fates: Fates, n: nat)
    requires n <= |rows|
    ensures forall p :: p in PostsMade(c, rows, limit, fates, n) ==> HasRow(rows, p.key, p.content)
    ensures forall i :: 0 <= i < n && c.ledger && Listed(rows, limit, i) ==>
      Posting(rows[i].dedupKey, PostOf(rows[i].payload), fates(i).ledger) in PostsMade(c, rows, limit, fates, n)
  {
    if n > 0 {
      PostsComeFromRows(c, rows, limit, fates, n - 1);
    }
  }

  ghost predicate FromRow(c: Clients, rows: seq<OutboxEntry>, limit: int, fates: Fates, e: Emission) {
    exists i :: 0 <= i < |rows| && AuditsRow(c, rows, limit, fates, i, e)
  }

  ghost predicate AuditsRow(c: Clients, rows: seq<OutboxEntry>, limit: int, fates: Fates, i: nat, e: Emission)
    requires i < |rows|
  {
    Listed(rows, limit, i) && Posted(c, fates(i)) && e.key == rows[i].dedupKey && e.content == AuditOf(rows[i].payload)
  }

  /** Each emission of a pass comes from a listed row that was posted, and each such row is audited. */
  lemma {:induction false} EmissionsComeFromRows(c: Clients, rows: seq<OutboxEntry>, limit: int, fates: Fates, n: nat)
    requires n <= |rows|
    ensures forall e :: e in EmissionsMade(c, rows, limit, fates, n) ==> FromRow(c, rows, limit, fates, e)
    ensures forall i :: 0 <= i < n && c.audit && Listed(rows, limit, i) && Posted(c, fates(i)) ==>
      Emission(rows[i].dedupKey, AuditOf(rows[i].payload), fates(i).audit) in EmissionsMade(c, rows, limit, fates, n)
  {
    if n > 0 {
      EmissionsComeFromRows(c, rows, limit, fates, n - 1);
      var last := Emission(rows[n - 1].dedupKey, AuditOf(rows[n - 1].payload), fates(n - 1).audit);
      if c.audit && Listed(rows, limit, n - 1) && Posted(c, fates(n - 1)) {
        assert AuditsRow(c, rows, limit, fates, n - 1, last);
      }
    }
  }

  lemma PostAcceptedGrows(posts: seq<Posting>, more: seq<Posting>, key: string)
    ensures PostAccepted(posts, key) ==> PostAccepted(posts + more, key)
    ensures forall p :: p in more && p.key == key && p.reply == Accepted ==> PostAccepted(posts + more, key)
  {
    if PostAccepted(posts, key) {
      var j :| 0 <= j < |posts| && posts[j].key == key && posts[j].reply == Accepted;
      assert (posts + more)[j] == posts[j];
    }
    forall p | p in more && p.key == key && p.reply == Accepted
      ensures PostAccepted(posts + more, key)
    {
      var k :| 0 <= k < |more| && more[k] == p;
      assert (posts + more)[|posts| + k] == p;
    }
  }

  lemma AuditAcceptedGrows(emissions: seq<Emission>, more: seq<Emission>, key: string)
    ensures AuditAccepted(emissions, key) ==> AuditAccepted(emissions + more, key)
    ensures forall e :: e in more && e.key == key && e.reply == Accepted ==> AuditAccepted(emissions + more, key)
  {
    if AuditAccepted(emissions, key) {
      var j :| 0 <= j < |emissions| && emissions[j].key == key && emissions[j].reply == Accepted;
      assert (emissions + more)[j] == emissions[j];
    }
    forall e | e in more && e.key == key && e.reply == Accepted
      ensures AuditAccepted(emissions + more, key)
    {
      var k :| 0 <= k < |more| && more[k] == e;
      assert (emissions + more)[|emissions| + k] == e;
    }
  }

  /** A longer table, or one with more marks, still holds every row's key and content. */
  lemma RowsKept(rows: seq<OutboxEntry>, rows': seq<OutboxEntry>)
    requires |rows| <= |rows'|
    requires forall i :: 0 <= i < |rows| ==>
      rows'[i].dedupKey == rows[i].dedupKey && rows'[i].payload == rows[i].payload
    ensures forall key, content :: HasRow(rows, key, content) ==> HasRow(rows', key, content)
    ensures forall key, content :: HasRowFor(rows, key, content) ==> HasRowFor(rows', key, content)
  {
    forall key, content | HasRow(rows, key, content)
      ensures HasRow(rows', key, content)
    {
      var i :| 0 <= i < |rows| && rows[i].dedupKey == key && Carries(content, rows[i].payload);
      assert rows'[i].dedupKey == key;
    }
    forall key, content | HasRowFor(rows, key, content)
      ensures HasRowFor(rows', key, content)
    {
      var i :| 0 <= i < |rows| && rows[i].dedupKey == key && Tells(content, rows[i].payload);
      assert rows'[i].dedupKey == key;
    }
  }

  lemma DispatchKeepsPosts(c: Clients, s: State, limit: int, fates: Fates, now: Time)
    requires PostsOk(s)
    ensures PostsOk(Step(c, s, Dispatch(limit, fates, now)))
  {
    var s' := Step(c, s, Dispatch(limit, fates, now));
    RowsKept(s.rows, s'.rows);
    var more := PostsMade(c, s.rows, limit, fates, |s.rows|);
    PostsComeFromRows(c, s.rows, limit, fates, |s.rows|);
    forall j | 0 <= j < |s'.posts|
      ensures HasRow(s'.rows, s'.posts[j].key, s'.posts[j].content)
    {
      if j >= |s.posts| {
        assert s'.posts[j] == more[j - |s.posts|];
        assert s'.posts[j] in more;
      }
    }
  }

  /** What a pass adds for a listed row that the ledger accepted. */
  lemma PostedInPass(c: Clients, s: State, limit: int, fates: Fates, now: Time, i: nat)
    requires i < |s.rows| && Listed(s.rows, limit, i) && c.ledger && Posted(c, fates(i))
    ensures PostAccepted(Step(c, s, Dispatch(limit, fates, now)).posts, s.rows[i].dedupKey)
  {
    PostsComeFromRows(c, s.rows, limit, fates, |s.rows|);
    PostAcceptedGrows(s.posts, PostsMade(c, s.rows, limit, fates, |s.rows|), s.rows[i].dedupKey);
  }

  lemma DispatchKeepsEmissions(c: Clients, s: State, limit: int, fates: Fates, now: Time)
    requires EmissionsOk(c, s)
    ensures EmissionsOk(c, Step(c, s, Dispatch(limit, fates, now)))
  {
    var s' := Step(c, s, Dispatch(limit, fates, now));
    RowsKept(s.rows, s'.rows);
    var posts, more := PostsMade(c, s.rows, limit, fates, |s.rows|), EmissionsMade(c, s.rows, limit, fates, |s.rows|);
    EmissionsComeFromRows(c, s.rows, limit, fates, |s.rows|);
    forall j | 0 <= j < |s'.emissions|
      ensures HasRowFor(s'.rows, s'.emissions[j].key, s'.emissions[j].content)
      ensures c.ledger ==> PostAccepted(s'.posts, s'.emissions[j].key)
    {
      var e := s'.emissions[j];
      if j < |s.emissions| {
        assert e == s.emissions[j];
        PostAcceptedGrows(s.posts, posts, e.key);
      } else {
        assert e == more[j - |s.emissions|] && e in more;
        var i :| 0 <= i < |s.rows| && AuditsRow(c, s.rows, limit, fates, i, e);
        assert s'.rows[i].dedupKey == e.key;
        if c.ledger {
          PostedInPass(c, s, limit, fates, now, i);
        }
      }
    }
  }

  lemma DispatchKeepsEmitted(c: Clients, s: State, limit: int, fates: Fates, now: Time)
    requires EmittedOk(c, s)
    ensures EmittedOk(c, Step(c, s, Dispatch(limit, fates, now)))
  {
    var s' := Step(c, s, Dispatch(limit, fates, now));
    var posts, more := PostsMade(c, s.rows, limit, fates, |s.rows|), EmissionsMade(c, s.rows, limit, fates, |s.rows|);
    forall i | 0 <= i < |s'.rows| && !Pending(s'.rows[i])
      ensures c.ledger ==> PostAccepted(s'.posts, s'.rows[i].dedupKey)
      ensures c.audit ==> AuditAccepted(s'.emissions, s'.rows[i].dedupKey)
    {
      var key := s.rows[i].dedupKey;
      PostAcceptedGrows(s.posts, posts, key);
      AuditAcceptedGrows(s.emissions, more, key);
      if Pending(s.rows[i]) {
        assert Listed(s.rows, limit, i) && Delivered(c, fates(i));
        if c.ledger {
          PostedInPass(c, s, limit, fates, now, i);
        }
        EmissionsComeFromRows(c, s.rows, limit, fates, |s.rows|);
      }
    }
  }

  lemma StepKeepsChain(c: Clients, s: State, a: Act)
    requires ChainOk(c, s)
    ensures ChainOk(c, Step(c, s, a))
  {
    match a {
      case Append(key, p) => RowsKept(s.rows, Step(c, s, a).rows);
      case Dispatch(limit, fates, now) =>
        DispatchKeepsPosts(c, s, limit, fates, now);
        DispatchKeepsEmissions(c, s, limit, fates, now);
        DispatchKeepsEmitted(c, s, limit, fates, now);
    }
  }

  lemma {:induction false} RunKeepsChain(c: Clients, s: State, acts: seq<Act>)
    requires ChainOk(c, s)
    ensures ChainOk(c, Run(c, s, acts))
    decreases |acts|
  {
    if acts != [] {
      StepKeepsChain(c, s, acts[0]);
      RunKeepsChain(c, Step(c, s, acts[0]), acts[1..]);
    }
  }

  ghost function RowKeys(rows: seq<OutboxEntry>): set<string> {
    set e | e in rows :: e.dedupKey
  }

  ghost function EmittedKeys(rows: seq<OutboxEntry>): set<string> {
    set e | e in rows && !Pending(e) :: e.dedupKey
  }

  ghost function PostedKeys(posts: seq<Posting>): set<string> {
    set p | p in posts && p.reply == Accepted :: p.key
  }

  ghost function AuditedKeys(emissions: seq<Emission>): set<string> {
    set e | e in emissions && e.reply == Accepted :: e.key
  }

  /** Emitted keys were audited, audited keys were posted, posted keys come from the outbox. */
  lemma DeliveryChain(c: Clients, acts: seq<Act>)
    requires c.ledger && c.audit
    ensures var s := Run(c, EMPTY, acts);
            EmittedKeys(s.rows) <= AuditedKeys(s.emissions) <= PostedKeys(s.posts) <= RowKeys(s.rows)
  {
    RunKeepsChain(c, EMPTY, acts);
    var s := Run(c, EMPTY, acts);
    forall k | k in EmittedKeys(s.rows)
      ensures k in AuditedKeys(s.emissions)
    {
      var i :| 0 <= i < |s.rows| && s.rows[i].dedupKey == k && !Pending(s.rows[i]);
      assert AuditAccepted(s.emissions, k);
    }
    forall k | k in AuditedKeys(s.emissions)
      ensures k in PostedKeys(s.posts)
    {
      var j :| 0 <= j < |s.emissions| && s.emissions[j].key == k && s.emissions[j].reply == Accepted;
      assert PostAccepted(s.posts, k);
    }
    forall k | k in PostedKeys(s.posts)
      ensures k in RowKeys(s.rows)
    {
      var j :| 0 <= j < |s.posts| && s.posts[j].key == k;
      assert HasRow(s.rows, k, s.posts[j].content);
    }
  }

  /** A ledger that ignores repeated idempotency keys; a lost reply took effect all the same. */
  function Book(posts: seq<Posting>): map<string, LedgerPost> {
    if posts == [] then map[]
    else
      var b, p := Book(posts[..|posts| - 1]), posts[|posts| - 1];
      if p.reply == Rejected || p.key in b then b else b[p.key := p.content]
  }

  lemma {:induction false} BookContents(rows: seq<OutboxEntry>, posts: seq<Posting>)
    requires forall p :: p in posts ==> HasRow(rows, p.key, p.content)
    ensures forall k :: k in Book(posts) ==> HasRow(rows, k, Book(posts)[k])
    ensures forall p :: p in posts && p.reply != Rejected ==> p.key in Book(posts)
  {
    if posts != [] {
      var n := |posts| - 1;
      assert posts == posts[..n] + [posts[n]];
      BookContents(rows, posts[..n]);
    }
  }

  /** The ledger books every emitted entry once, with that entry's content, and nothing that is not in the outbox. */
  lemma LedgerBooksEmitted(c: Clients, acts: seq<Act>)
    requires c.ledger
    ensures var s := Run(c, EMPTY, acts);
            && (forall i :: 0 <= i < |s.rows| && !Pending(s.rows[i]) ==> s.rows[i].dedupKey in Book(s.posts))
            && (forall i :: 0 <= i < |s.rows| && s.rows[i].dedupKey in Book(s.posts) ==>
                  Carries(Book(s.posts)[s.rows[i].dedupKey], s.rows[i].payload))
            && Book(s.posts).Keys <= RowKeys(s.rows)
  {
    RunKeepsChain(c, EMPTY, acts);
    var s := Run(c, EMPTY, acts);
    BookContents(s.rows, s.posts);
    forall i | 0 <= i < |s.rows| && !Pending(s.rows[i])
      ensures s.rows[i].dedupKey in Book(s.posts)
    {
      assert PostAccepted(s.posts, s.rows[i].dedupKey);
    }
    forall i | 0 <= i < |s.rows| && s.rows[i].dedupKey in Book(s.posts)
      ensures Carries(Book(s.posts)[s.rows[i].dedupKey], s.rows[i].payload)
    {
      assert HasRow(s.rows, s.rows[i].dedupKey, Book(s.posts)[s.rows[i].dedupKey]);
    }
    forall k | k in Book(s.posts)
      ensures k in RowKeys(s.rows)
    {
      assert HasRow(s.rows, k, Book(s.posts)[k]);
    }
  }

  /** Any two attempts to post one key ask for the same posting. */
  lemma RepeatedPostsAgree(c: Clients, acts: seq<Act>, j: nat, k: nat)
    requires var posts := Run(c, EMPTY, acts).posts; j < |posts| && k < |posts| && posts[j].key == posts[k].key
    ensures var posts := Run(c, EMPTY, acts).posts; posts[j].content == posts[k].content
  {
    RunKeepsChain(c, EMPTY, acts);
    var s := Run(c, EMPTY, acts);
    assert HasRow(s.rows, s.posts[j].key, s.posts[j].content);
    assert HasRow(s.rows, s.posts[k].key, s.posts[k].content);
  }

  /** Every posting and every audit event made under a key carries the fields of the entry with that key. */
  lemma RequestsCarryEntries(c: Clients, acts: seq<Act>, i: nat)
    requires i < |Run(c, EMPTY, acts).rows|
    ensures var s := Run(c, EMPTY, acts);
            && (forall j :: 0 <= j < |s.posts| && s.posts[j].key == s.rows[i].dedupKey ==>
                  Carries(s.posts[j].content, s.rows[i].payload))
            && (forall j :: 0 <= j < |s.emissions| && s.emissions[j].key == s.rows[i].dedupKey ==>
                  Tells(s.emissions[j].content, s.rows[i].payload))
  {
    hide Run;
    RunKeepsChain(c, EMPTY, acts);
    ChainCarries(c, Run(c, EMPTY, acts), i);
  }

  lemma ChainCarries(c: Clients, s: State, i: nat)
    requires ChainOk(c, s) && i < |s.rows|
    ensures forall j :: 0 <= j < |s.posts| && s.posts[j].key == s.rows[i].dedupKey ==>
      Carries(s.posts[j].content, s.rows[i].payload)
    ensures forall j :: 0 <= j < |s.emissions| && s.emissions[j].key == s.rows[i].dedupKey ==>
      Tells(s.emissions[j].content, s.rows[i].payload)
  {
    forall j | 0 <= j < |s.posts| && s.posts[j].key == s.rows[i].dedupKey
      ensures Carries(s.posts[j].content, s.rows[i].payload)
    {
      assert HasRow(s.rows, s.posts[j].key, s.posts[j].content);
    }
    forall j | 0 <= j < |s.emissions| && s.emissions[j].key == s.rows[i].dedupKey
      ensures Tells(s.emissions[j].content, s.rows[i].payload)
    {
      assert HasRowFor(s.rows, s.emissions[j].key, s.emissions[j].content);
    }
  }

  // --- Draining a backlog ---

  /** Pending entries among the first n rows that are not stuck. */
  function HealthyAhead(rows: seq<OutboxEntry>, stuck: set<nat>, n: nat): nat
    requires n <= |rows|
  {
    if n == 0 then 0
    else HealthyAhead(rows, stuck, n - 1) + if Pending(rows[n - 1]) && n - 1 !in stuck then 1 else 0
  }

  function Below(stuck: set<nat>, n: nat): set<nat> {
    set i | i in stuck && i < n
  }

  /** Every entry that is not stuck goes through. */
  ghost predicate HealthyDelivered(c: Clients, fates: Fates, stuck: set<nat>) {
    forall i: nat :: i !in stuck ==> Delivered(c, fates(i))
  }

  /** One pass takes a full window out of the healthy entries, less the stuck ones it listed. */
  lemma {:induction false} PassDrains(
    c: Clients, rows: seq<OutboxEntry>, limit: int, fates: Fates, now: Time, stuck: set<nat>, n: nat)
    requires n <= |rows| && limit >= 1 && HealthyDelivered(c, fates, stuck)
    ensures var rows' := Dispatched(c, rows, limit, fates, now, |rows|);
            var taken := if PendingCount(rows, n) < limit then PendingCount(rows, n) else limit;
            HealthyAhead(rows', stuck, n) + taken <= HealthyAhead(rows, stuck, n) + |Below(stuck, n)|
  {
    if n > 0 {
      PassDrains(c, rows, limit, fates, now, stuck, n - 1);
      if n - 1 in stuck {
        assert Below(stuck, n) == Below(stuck, n - 1) + {n - 1};
      } else {
        assert Below(stuck, n) == Below(stuck, n - 1);
      }
    }
  }

  lemma {:induction false} AppendKeepsHealthy(rows: seq<OutboxEntry>, more: seq<OutboxEntry>, stuck: set<nat>, n: nat)
    requires n <= |rows|
    ensures HealthyAhead(rows + more, stuck, n) == HealthyAhead(rows, stuck, n)
  {
    if n > 0 {
      AppendKeepsHealthy(rows, more, stuck, n - 1);
    }
  }

  function Passes(acts: seq<Act>): nat {
    if acts == [] then 0 else (if acts[0].Dispatch? then 1 else 0) + Passes(acts[1..])
  }

  ghost predicate Draining(c: Clients, acts: seq<Act>, limit: int, stuck: set<nat>) {
    forall i :: 0 <= i < |acts| && acts[i].Dispatch? ==>
      acts[i].limit == limit && HealthyDelivered(c, acts[i].fates, stuck)
  }

  /** A marked entry stays marked. */
  lemma {:induction false} EmittedForGood(c: Clients, s: State, acts: seq<Act>, e: nat)
    requires e < |s.rows| && !Pending(s.rows[e])
    ensures e < |Run(c, s, acts).rows| && !Pending(Run(c, s, acts).rows[e])
    decreases |acts|
  {
    if acts != [] {
      EmittedForGood(c, Step(c, s, acts[0]), acts[1..], e);
    }
  }

  /** A pass that leaves an entry waiting takes at least limit - B healthy entries out ahead of it. */
  lemma WaitingEntryAdvances(c: Clients, s: State, limit: int, fates: Fates, now: Time, stuck: set<nat>, e: nat)
    requires e < |s.rows| && e !in stuck && |stuck| < limit && HealthyDelivered(c, fates, stuck)
    requires Pending(Dispatched(c, s.rows, limit, fates, now, |s.rows|)[e])
    ensures HealthyAhead(Dispatched(c, s.rows, limit, fates, now, |s.rows|), stuck, e) + limit - |stuck|
         <= HealthyAhead(s.rows, stuck, e)
  {
    assert PendingCount(s.rows, e) >= limit;
    PassDrains(c, s.rows, limit, fates, now, stuck, e);
    StuckBelow(stuck, e);
  }

  /** With B < limit stuck entries, g healthy entries ahead delay an entry by at most g / (limit - B) passes:
      it is emitted after any more than that, whatever is appended in between. */
  lemma {:induction false} BacklogDrains(c: Clients, s: State, acts: seq<Act>, limit: int, stuck: set<nat>, e: nat)
    requires e < |s.rows| && e !in stuck && |stuck| < limit
    requires Draining(c, acts, limit, stuck)
    requires Passes(acts) * (limit - |stuck|) > HealthyAhead(s.rows, stuck, e)
    ensures e < |Run(c, s, acts).rows| && !Pending(Run(c, s, acts).rows[e])
    decreases |acts|
  {
    hide HealthyAhead, PendingCount;
    var s' := Step(c, s, acts[0]);
    var room := limit - |stuck|;
    assert acts[1..] == acts[1..] && Draining(c, acts[1..], limit, stuck);
    match acts[0] {
      case Append(key, p) =>
        if key !in s.seen {
          AppendKeepsHealthy(s.rows, [OutboxEntry(|s.rows|, key, p, None)], stuck, e);
        }
        BacklogDrains(c, s', acts[1..], limit, stuck, e);
      case Dispatch(_, fates, now) =>
        if !Pending(s'.rows[e]) {
          EmittedForGood(c, s', acts[1..], e);
        } else {
          WaitingEntryAdvances(c, s, limit, fates, now, stuck, e);
          assert Passes(acts) * room == room + Passes(acts[1..]) * room;
          BacklogDrains(c, s', acts[1..], limit, stuck, e);
        }
    }
  }

  lemma StuckBelow(stuck: set<nat>, n: nat)
    ensures |Below(stuck, n)| <= |stuck|
  {
    SubsetSize(Below(stuck, n), stuck);
  }

  lemma {:induction false} SubsetSize(a: set<nat>, b: set<nat>)
    requires a <= b
    ensures |a| <= |b|
  {
    if a != {} {
      var x :| x in a;
      SubsetSize(a - {x}, b - {x});
    }
  }
}
