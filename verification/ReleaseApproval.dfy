/**
 The promotion capability projected from the durable log
 (services/room-orchestrator/src/release-control.ts).
 */
module ReleaseApproval {
  import opened OperationEvents
  import opened Wrappers

  const CANARY_ROOM := "canary-room"

  datatype Approval = Approval(
    operation: string, revision: string, imageDigest: string, bundleId: string,
    approvalEvent: nat, bundleEvent: nat, sealedAt: int)

  predicate WellFormedDigest(digest: string) {
    && |digest| == 71 && digest[..7] == "sha256:"
    && forall k | 7 <= k < 71 :: 'a' <= digest[k] <= 'f' || '0' <= digest[k] <= '9'
  }

  predicate ForCanary(e: Event, revision: string) {
    e.payload.room == CANARY_ROOM && e.payload.revision == revision
  }

  // --- one operation -------------------------------------------------------------

  function Insert(e: Event, sorted: Log): Log {
    if sorted == [] || e.sequence <= sorted[0].sequence then [e] + sorted
    else [sorted[0]] + Insert(e, sorted[1..])
  }

  /** A stable sort by sequence. */
  function BySequence(log: Log): Log {
    if log == [] then [] else Insert(log[0], BySequence(log[1..]))
  }

  function LastApproval(operation: Log, revision: string): Option<Event> {
    if operation == [] then None
    else
      var last := operation[|operation| - 1];
      if last.subject == PromotionApproved && ForCanary(last, revision) then Some(last)
      else LastApproval(operation[..|operation| - 1], revision)
  }

  /** The approval that one operation's events amount to, if any. */
  function Qualify(unsorted: Log, revision: string): Option<Approval> {
    QualifySorted(BySequence(unsorted), revision)
  }

  predicate Mentions(operation: Log, revision: string) {
    exists k | 0 <= k < |operation| :: ForCanary(operation[k], revision)
  }

  predicate BlockedAfter(operation: Log, sequence: nat) {
    exists k | 0 <= k < |operation| :: operation[k].subject == PromotionBlocked && operation[k].sequence > sequence
  }

  function QualifySorted(operation: Log, revision: string): Option<Approval> {
    var approval := LastApproval(operation, revision);
    if !Mentions(operation, revision) then None
    else if !SealsFor(operation[|operation| - 1], revision) then None
    else if approval == None || approval.value.sequence >= operation[|operation| - 1].sequence then None
    else if BlockedAfter(operation, approval.value.sequence) then None
    else Bind(operation[|operation| - 1], approval.value, revision)
  }

  /** A complete evidence bundle for the canary and revision. */
  predicate SealsFor(terminal: Event, revision: string) {
    && terminal.subject == EvidenceBundleSealed && terminal.payload.completed
    && ForCanary(terminal, revision) && terminal.payload.complete
  }

  /** The bundle binds the decision it contains to the runtime digest both observed. */
  function Bind(terminal: Event, approval: Event, revision: string): Option<Approval> {
    var digest := if terminal.payload.imageDigest.Some? then terminal.payload.imageDigest.value else "";
    if !WellFormedDigest(digest) || approval.payload.imageDigest != Some(digest) then None
    else if EventId(approval.id) !in terminal.payload.evidenceIds || terminal.payload.bundleId == "" then None
    else Some(Approval(terminal.operation, revision, digest, terminal.payload.bundleId,
                       approval.id, terminal.id, terminal.createdAt))
  }

  lemma {:induction false} SortedStays(log: Log)
    requires Increasing(log)
    ensures BySequence(log) == log
  {
    if log != [] {
      SortedStays(log[1..]);
      assert log == [log[0]] + log[1..];
    }
  }

  lemma {:induction false} LastApprovalOfConcat(a: Log, b: Log, revision: string)
    ensures LastApproval(a + b, revision) ==
            if LastApproval(b, revision).Some? then LastApproval(b, revision) else LastApproval(a, revision)
    decreases |b|
  {
    if b == [] {
      assert a + b == a;
    } else {
      assert (a + b)[..|a + b| - 1] == a + b[..|b| - 1];
      LastApprovalOfConcat(a, b[..|b| - 1], revision);
    }
  }

  lemma {:induction false} LastApprovalIsThere(log: Log, revision: string)
    ensures var l := LastApproval(log, revision);
            l.Some? ==> l.value in log && ForCanary(l.value, revision)
    decreases |log|
  {
    if log != [] {
      LastApprovalIsThere(log[..|log| - 1], revision);
    }
  }

  /** Losing the front of an operation's events changes its approval exactly when the approving
      event itself is lost: a suffix that still holds it qualifies the same, and one that
      does not hold it never qualifies. */
  lemma QualifyAfterTrim(dropped: Log, kept: Log, revision: string)
    requires Increasing(dropped + kept)
    ensures QualifySorted(kept, revision) ==
            if LastApproval(kept, revision).Some? then QualifySorted(dropped + kept, revision) else None
  {
    var whole := dropped + kept;
    LastApprovalOfConcat(dropped, kept, revision);
    LastApprovalIsThere(kept, revision);
    var approval := LastApproval(kept, revision);
    if approval.Some? {
      var k :| 0 <= k < |kept| && kept[k] == approval.value;
      assert whole[|dropped| + k] == approval.value;
      assert Mentions(kept, revision) && Mentions(whole, revision);
      assert whole[|whole| - 1] == kept[|kept| - 1];
      forall j | 0 <= j < |dropped|
        ensures dropped[j].sequence < approval.value.sequence
      {
        assert whole[j] == dropped[j];
      }
      BlockedAfterTrim(dropped, kept, approval.value.sequence);
    }
  }

  lemma BlockedAfterTrim(dropped: Log, kept: Log, sequence: nat)
    requires forall j | 0 <= j < |dropped| :: dropped[j].sequence < sequence
    ensures BlockedAfter(kept, sequence) <==> BlockedAfter(dropped + kept, sequence)
  {
    var whole := dropped + kept;
    if k :| 0 <= k < |kept| && kept[k].subject == PromotionBlocked && kept[k].sequence > sequence {
      assert whole[|dropped| + k] == kept[k];
    }
    if k :| 0 <= k < |whole| && whole[k].subject == PromotionBlocked && whole[k].sequence > sequence {
      assert k >= |dropped| && kept[k - |dropped|] == whole[k];
    }
  }

  /** Trimming the log never invents an approval: what an operation amounts to over any suffix
      it already amounts to over the whole log. */
  lemma TrimmingNeverInvents(dropped: Log, kept: Log, operation: string, revision: string)
    requires Ordered(dropped + kept)
    ensures Qualify(Of(kept, operation), revision).Some? ==>
              Qualify(Of(kept, operation), revision) == Qualify(Of(dropped + kept, operation), revision)
  {
    OfConcat(dropped, kept, operation);
    OfIncreasing(dropped + kept, operation);
    var a, b := Of(dropped, operation), Of(kept, operation);
    assert Increasing(b) by {
      forall i, j | 0 <= i < j < |b|
        ensures b[i].sequence < b[j].sequence
      {
        assert (a + b)[|a| + i] == b[i] && (a + b)[|a| + j] == b[j];
      }
    }
    SortedStays(b);
    SortedStays(a + b);
    QualifyAfterTrim(a, b, revision);
  }

  // --- the approval, written out ---------------------------------------------------------------

  /** i stands before j when a log is sorted by sequence and equal ones stay as they were. */
  ghost predicate Behind(log: Log, i: nat, j: nat)
    requires i < |log| && j < |log|
  {
    log[i].sequence < log[j].sequence || (log[i].sequence == log[j].sequence && i < j)
  }

  /** An approval of the canary room for this revision. */
  ghost predicate Approves(e: Event, revision: string) {
    e.subject == PromotionApproved && e.payload.room == "canary-room" && e.payload.revision == revision
  }

  ghost predicate IsHexadecimal(c: char) {
    c in "abcdef0123456789"
  }

  /** "sha256:" and 64 hexadecimal digits. */
  ghost predicate IsDigest(digest: string) {
    |digest| == 71 && digest[..7] == "sha256:" && forall k | 7 <= k < 71 :: IsHexadecimal(digest[k])
  }

  lemma HexadecimalWrittenOut(c: char)
    ensures IsHexadecimal(c) <==> 'a' <= c <= 'f' || '0' <= c <= '9'
  {
  }

  lemma DigestWrittenOut(digest: string)
    ensures WellFormedDigest(digest) <==> IsDigest(digest)
  {
    forall k | 0 <= k < |digest|
      ensures IsHexadecimal(digest[k]) <==> 'a' <= digest[k] <= 'f' || '0' <= digest[k] <= '9'
    {
      HexadecimalWrittenOut(digest[k]);
    }
  }

  /** The bundle is complete, was completed, and holds the approval and the digest it was given
      for. */
  ghost predicate Seals(bundle: Event, approval: Event, revision: string) {
    && bundle.subject == EvidenceBundleSealed && bundle.payload.completed && bundle.payload.complete
    && bundle.payload.room == "canary-room" && bundle.payload.revision == revision
    && EventId(approval.id) in bundle.payload.evidenceIds && bundle.payload.bundleId != ""
    && bundle.payload.imageDigest.Some? && bundle.payload.imageDigest == approval.payload.imageDigest
    && IsDigest(bundle.payload.imageDigest.value)
  }

  /** Event a approves, event b of the same operation seals the approval: a is the operation's
      latest approval for the revision and nothing was blocked beyond it, b is the operation's
      last event and comes after a. */
  ghost predicate SealedIn(log: Log, a: nat, b: nat, operation: string, revision: string) {
    && a < |log| && b < |log| && log[a].operation == operation && log[b].operation == operation
    && Approves(log[a], revision) && Seals(log[b], log[a], revision) && log[a].sequence < log[b].sequence
    && (forall j: nat | j < |log| && j != b && log[j].operation == operation :: Behind(log, j, b))
    && (forall j: nat | j < |log| && j != a && log[j].operation == operation && Approves(log[j], revision) ::
          Behind(log, j, a))
    && (forall j: nat | j < |log| && log[j].operation == operation && log[j].subject == PromotionBlocked ::
          log[j].sequence <= log[a].sequence)
  }

  /** The approval that such a pair of events amounts to. */
  ghost function ApprovalOf(approval: Event, bundle: Event, revision: string): Approval
    requires bundle.payload.imageDigest.Some?
  {
    Approval(bundle.operation, revision, bundle.payload.imageDigest.value, bundle.payload.bundleId, approval.id,
             bundle.id, bundle.createdAt)
  }

  lemma BindWrittenOut(bundle: Event, approval: Event, revision: string)
    requires Approves(approval, revision)
    ensures SealsFor(bundle, revision) && Bind(bundle, approval, revision).Some? <==> Seals(bundle, approval, revision)
    ensures Seals(bundle, approval, revision) ==>
              Bind(bundle, approval, revision) == Some(ApprovalOf(approval, bundle, revision))
  {
    DigestWrittenOut("");
    if bundle.payload.imageDigest.Some? {
      DigestWrittenOut(bundle.payload.imageDigest.value);
    }
  }

  ghost predicate Rising(log: Log) {
    forall i, j | 0 <= i < j < |log| :: log[i].sequence <= log[j].sequence
  }

  lemma {:induction false} InsertPermutes(e: Event, sorted: Log)
    ensures multiset(Insert(e, sorted)) == multiset{e} + multiset(sorted)
  {
    if sorted != [] && e.sequence > sorted[0].sequence {
      InsertPermutes(e, sorted[1..]);
      assert sorted == [sorted[0]] + sorted[1..];
    }
  }

  lemma InsertedMembers(e: Event, sorted: Log)
    ensures forall x :: x in Insert(e, sorted) ==> x == e || x in sorted
  {
    InsertPermutes(e, sorted);
    forall x | x in Insert(e, sorted)
      ensures x == e || x in sorted
    {
      assert x in multiset(Insert(e, sorted));
    }
  }

  lemma RisingOneMore(first: Event, rest: Log)
    requires Rising(rest) && forall x | x in rest :: first.sequence <= x.sequence
    ensures Rising([first] + rest)
  {
  }

  lemma {:induction false} InsertKeepsRising(e: Event, sorted: Log)
    requires Rising(sorted)
    ensures Rising(Insert(e, sorted))
  {
    if sorted == [] || e.sequence <= sorted[0].sequence {
      RisingOneMore(e, sorted);
    } else {
      InsertKeepsRising(e, sorted[1..]);
      InsertedMembers(e, sorted[1..]);
      RisingOneMore(sorted[0], Insert(e, sorted[1..]));
    }
  }

  /** Sorting permutes, and puts in order. */
  lemma {:induction false} SortIsRising(log: Log)
    ensures Rising(BySequence(log)) && multiset(BySequence(log)) == multiset(log)
  {
    if log != [] {
      SortIsRising(log[1..]);
      InsertKeepsRising(log[0], BySequence(log[1..]));
      InsertPermutes(log[0], BySequence(log[1..]));
      assert log == [log[0]] + log[1..];
    }
  }

  lemma SortedRises(log: Log)
    ensures Rising(BySequence(log)) && |BySequence(log)| == |log|
  {
    SortIsRising(log);
    assert |multiset(BySequence(log))| == |multiset(log)|;
  }

  lemma SortedMembers(log: Log)
    ensures forall e :: e in BySequence(log) <==> e in log
  {
    SortIsRising(log);
    assert forall e :: e in BySequence(log) <==> e in multiset(BySequence(log));
  }

  lemma {:induction false} LastOfInsert(e: Event, sorted: Log)
    requires sorted != [] && Rising(sorted)
    ensures var r := Insert(e, sorted);
            |r| == |sorted| + 1 &&
            r[|r| - 1] == if e.sequence > sorted[|sorted| - 1].sequence then e else sorted[|sorted| - 1]
  {
    if e.sequence > sorted[0].sequence && |sorted| > 1 {
      LastOfInsert(e, sorted[1..]);
    }
  }

  lemma LastApprovalOfFirst(first: Event, rest: Log, revision: string)
    ensures LastApproval([first] + rest, revision) ==
            if LastApproval(rest, revision).Some? then LastApproval(rest, revision)
            else if Approves(first, revision) then Some(first) else None
  {
    LastApprovalOfConcat([first], rest, revision);
    assert [first][..0] == [];
    assert LastApproval([], revision) == None;
  }

  lemma {:induction false} LastApprovalOfInsert(e: Event, sorted: Log, revision: string)
    requires Rising(sorted)
    ensures var last := LastApproval(sorted, revision);
            LastApproval(Insert(e, sorted), revision) ==
              if Approves(e, revision) && (last == None || e.sequence > last.value.sequence) then Some(e) else last
  {
    var last := LastApproval(sorted, revision);
    LastApprovalIsThere(sorted, revision);
    if sorted == [] || e.sequence <= sorted[0].sequence {
      LastApprovalOfFirst(e, sorted, revision);
    } else {
      LastApprovalOfInsert(e, sorted[1..], revision);
      LastApprovalOfFirst(sorted[0], Insert(e, sorted[1..]), revision);
      LastApprovalOfFirst(sorted[0], sorted[1..], revision);
      assert sorted == [sorted[0]] + sorted[1..];
    }
  }

  /** The last of the sorted events is the one with no other behind it. */
  lemma {:induction false} LastWrittenOut(log: Log) returns (b: nat)
    requires log != []
    ensures b < |log| && BySequence(log) != [] && BySequence(log)[|BySequence(log)| - 1] == log[b]
    ensures forall j: nat | j < |log| && j != b :: Behind(log, j, b)
  {
    if |log| == 1 {
      b := 0;
    } else {
      var rest := log[1..];
      var last := LastWrittenOut(rest);
      SortedRises(rest);
      LastOfInsert(log[0], BySequence(rest));
      assert BySequence(log) == Insert(log[0], BySequence(rest));
      b := if log[0].sequence > rest[last].sequence then 0 else last + 1;
      forall j: nat | j < |log| && j != b
        ensures Behind(log, j, b)
      {
        assert j > 0 && j - 1 != last ==> Behind(rest, j - 1, last);
      }
    }
  }

  /** The approval found is the one with no other approval behind it. */
  lemma {:induction false} LatestWrittenOut(log: Log, revision: string) returns (a: int)
    ensures var last := LastApproval(BySequence(log), revision);
            if a < 0 then last == None && forall j: nat | j < |log| :: !Approves(log[j], revision)
            else
              a < |log| && last == Some(log[a]) && Approves(log[a], revision)
              && forall j: nat | j < |log| && j != a && Approves(log[j], revision) :: Behind(log, j, a)
  {
    a := -1;
    if log != [] {
      var rest := log[1..];
      var last := LatestWrittenOut(rest, revision);
      SortedRises(rest);
      LastApprovalOfInsert(log[0], BySequence(rest), revision);
      if Approves(log[0], revision) && (last < 0 || log[0].sequence > rest[last].sequence) {
        a := 0;
      } else if last >= 0 {
        a := last + 1;
      }
      forall j: nat | j < |log| && j != a && Approves(log[j], revision)
        ensures a >= 0 && Behind(log, j, a)
      {
        assert j > 0 ==> Approves(rest[j - 1], revision);
        assert j > 0 && j - 1 != last ==> Behind(rest, j - 1, last);
      }
    }
  }

  lemma BlockedWrittenOut(log: Log, sequence: nat)
    ensures BlockedAfter(BySequence(log), sequence) <==>
            exists j: nat :: j < |log| && log[j].subject == PromotionBlocked && log[j].sequence > sequence
  {
    SortedMembers(log);
    var sorted := BySequence(log);
    if BlockedAfter(sorted, sequence) {
      var k :| 0 <= k < |sorted| && sorted[k].subject == PromotionBlocked && sorted[k].sequence > sequence;
      assert sorted[k] in log;
    }
    if j: nat :| j < |log| && log[j].subject == PromotionBlocked && log[j].sequence > sequence {
      assert log[j] in sorted;
    }
  }

  lemma MentionsWrittenOut(log: Log, revision: string, b: nat)
    requires b < |log| && log[b].payload.room == "canary-room" && log[b].payload.revision == revision
    ensures Mentions(BySequence(log), revision)
  {
    SortedMembers(log);
    assert log[b] in BySequence(log);
    var k :| 0 <= k < |BySequence(log)| && BySequence(log)[k] == log[b];
  }

  /** What one operation's events amount to, from their last event b and latest approval a. */
  lemma QualifyFrom(log: Log, revision: string, a: int, b: nat)
    requires b < |log| && BySequence(log) != [] && BySequence(log)[|BySequence(log)| - 1] == log[b]
    requires if a < 0 then LastApproval(BySequence(log), revision) == None
             else a < |log| && LastApproval(BySequence(log), revision) == Some(log[a]) && Approves(log[a], revision)
    ensures Qualify(log, revision) ==
            if a >= 0 && Seals(log[b], log[a], revision) && log[a].sequence < log[b].sequence
               && !(exists j: nat :: j < |log| && log[j].subject == PromotionBlocked
                                     && log[j].sequence > log[a].sequence)
            then Some(ApprovalOf(log[a], log[b], revision)) else None
  {
    if a >= 0 {
      BindWrittenOut(log[b], log[a], revision);
      BlockedWrittenOut(log, log[a].sequence);
      if Seals(log[b], log[a], revision) {
        MentionsWrittenOut(log, revision, b);
      }
    }
  }

  /** One operation's events amount to an approval exactly when one of them seals another. */
  lemma QualifyWrittenOut(log: Log, operation: string, revision: string)
    requires forall e | e in log :: e.operation == operation
    ensures Qualify(log, revision).Some? ==> exists a: nat, b: nat :: SealedIn(log, a, b, operation, revision)
    ensures forall a: nat, b: nat :: SealedIn(log, a, b, operation, revision) ==>
              Qualify(log, revision) == Some(ApprovalOf(log[a], log[b], revision))
  {
    if log != [] {
      var b := LastWrittenOut(log);
      var a := LatestWrittenOut(log, revision);
      QualifyFrom(log, revision, a, b);
      if Qualify(log, revision).Some? {
        assert SealedIn(log, a, b, operation, revision);
      }
      forall a': nat, b': nat | SealedIn(log, a', b', operation, revision)
        ensures a' == a && b' == b
      {
        assert b' != b ==> Behind(log, b', b) && Behind(log, b, b');
        assert a >= 0;
        assert a' != a ==> Behind(log, a', a) && Behind(log, a, a');
      }
    }
  }

  /** Where the events of an operation stand in the log. */
  ghost function Places(log: Log, operation: string): seq<nat> {
    if log == [] then []
    else
      var before := log[..|log| - 1];
      Places(before, operation) + if log[|log| - 1].operation == operation then [|before|] else []
  }

  ghost predicate PlacedAt(log: Log, operation: string, places: seq<nat>) {
    && |places| == |Of(log, operation)|
    && (forall i | 0 <= i < |places| ::
          places[i] < |log| && log[places[i]] == Of(log, operation)[i] && log[places[i]].operation == operation)
    && (forall i, j | 0 <= i < j < |places| :: places[i] < places[j])
    && (forall j: nat | j < |log| && log[j].operation == operation :: j in places)
  }

  lemma {:induction false} PlacesArePlaced(log: Log, operation: string)
    ensures PlacedAt(log, operation, Places(log, operation))
    decreases |log|
  {
    if log != [] {
      var before, e := log[..|log| - 1], log[|log| - 1];
      PlacesArePlaced(before, operation);
      OfOneMore(before, e, operation);
      assert log == before + [e];
    }
  }

  /** Sorting orders an operation's events alike on their own and in the log. */
  lemma BehindAtPlaces(log: Log, operation: string, i: nat, j: nat)
    requires PlacedAt(log, operation, Places(log, operation))
    requires i < |Of(log, operation)| && j < |Of(log, operation)|
    ensures var places := Places(log, operation);
            && (Behind(Of(log, operation), i, j) <==> Behind(log, places[i], places[j]))
            && (i != j ==> places[i] != places[j])
  {
    var places := Places(log, operation);
    assert i < j ==> places[i] < places[j];
    assert j < i ==> places[j] < places[i];
  }

  lemma SealedAtPlaces(log: Log, a: nat, b: nat, operation: string, revision: string)
    requires PlacedAt(log, operation, Places(log, operation))
    requires SealedIn(Of(log, operation), a, b, operation, revision)
    ensures SealedIn(log, Places(log, operation)[a], Places(log, operation)[b], operation, revision)
  {
    var own, places := Of(log, operation), Places(log, operation);
    forall j: nat | j < |log| && log[j].operation == operation
      ensures j != places[b] ==> Behind(log, j, places[b])
      ensures j != places[a] && Approves(log[j], revision) ==> Behind(log, j, places[a])
      ensures log[j].subject == PromotionBlocked ==> log[j].sequence <= log[places[a]].sequence
    {
      var k :| 0 <= k < |places| && places[k] == j;
      BehindAtPlaces(log, operation, k, b);
      BehindAtPlaces(log, operation, k, a);
    }
  }

  lemma SealedFromPlaces(log: Log, a: nat, b: nat, operation: string, revision: string)
    requires PlacedAt(log, operation, Places(log, operation))
    requires a < |Of(log, operation)| && b < |Of(log, operation)|
    requires SealedIn(log, Places(log, operation)[a], Places(log, operation)[b], operation, revision)
    ensures SealedIn(Of(log, operation), a, b, operation, revision)
  {
    var own := Of(log, operation);
    forall k: nat | k < |own|
      ensures k != b ==> Behind(own, k, b)
      ensures k != a && Approves(own[k], revision) ==> Behind(own, k, a)
      ensures own[k].subject == PromotionBlocked ==> own[k].sequence <= own[a].sequence
    {
      BehindAtPlaces(log, operation, k, b);
      BehindAtPlaces(log, operation, k, a);
    }
  }

  lemma SealedQualifies(log: Log, a: nat, b: nat, operation: string, revision: string)
    requires PlacedAt(log, operation, Places(log, operation)) && SealedIn(log, a, b, operation, revision)
    requires forall e | e in Of(log, operation) :: e.operation == operation
    ensures Qualify(Of(log, operation), revision) == Some(ApprovalOf(log[a], log[b], revision))
  {
    var places := Places(log, operation);
    var i :| 0 <= i < |places| && places[i] == a;
    var j :| 0 <= j < |places| && places[j] == b;
    SealedFromPlaces(log, i, j, operation, revision);
    QualifyWrittenOut(Of(log, operation), operation, revision);
  }

  /** An operation amounts to an approval exactly when, somewhere in the log, one of its events
      seals another, and then to what those two say. */
  lemma ApprovalWrittenOut(log: Log, operation: string, revision: string)
    ensures Qualify(Of(log, operation), revision).Some? <==>
            exists a: nat, b: nat :: SealedIn(log, a, b, operation, revision)
    ensures forall a: nat, b: nat :: SealedIn(log, a, b, operation, revision) ==>
              Qualify(Of(log, operation), revision) == Some(ApprovalOf(log[a], log[b], revision))
  {
    PlacesArePlaced(log, operation);
    OfMembers(log, operation);
    if Qualify(Of(log, operation), revision).Some? {
      QualifyWrittenOut(Of(log, operation), operation, revision);
      var a: nat, b: nat :| SealedIn(Of(log, operation), a, b, operation, revision);
      SealedAtPlaces(log, a, b, operation, revision);
    }
    forall a: nat, b: nat | SealedIn(log, a, b, operation, revision)
      ensures Qualify(Of(log, operation), revision) == Some(ApprovalOf(log[a], log[b], revision))
    {
      SealedQualifies(log, a, b, operation, revision);
    }
  }

  lemma SealedIsOwn(log: Log, a: nat, b: nat, operation: string, revision: string)
    requires SealedIn(log, a, b, operation, revision)
    ensures log[a] in Of(log, operation) && log[b] in Of(log, operation)
  {
    OfMembers(log, operation);
  }

  // --- the projection --------------------------------------------------------------------

  /** An operation of the log stands at k exactly where its first event has only events of the
      operations before it in front. */
  ghost predicate FirstSeen(order: seq<string>, log: Log, k: nat)
    requires k < |order|
  {
    exists i | 0 <= i < |log| :: log[i].operation == order[k] && forall j | 0 <= j < i :: log[j].operation in order[..k]
  }

  /** The operations of a log, in order of first appearance. */
  ghost predicate Lists(order: seq<string>, log: Log) {
    && (forall i, j :: 0 <= i < j < |order| ==> order[i] != order[j])
    && (forall o :: o in order <==> Of(log, o) != [])
    && (forall k | 0 <= k < |order| :: FirstSeen(order, log, k))
  }

  lemma FirstSeenStays(order: seq<string>, more: seq<string>, log: Log, e: Event, k: nat)
    requires k < |order| && FirstSeen(order, log, k)
    ensures FirstSeen(order + more, log + [e], k)
  {
    var longer := log + [e];
    var i :| 0 <= i < |log| && log[i].operation == order[k] && forall j | 0 <= j < i :: log[j].operation in order[..k];
    assert (order + more)[..k] == order[..k];
    assert longer[i] == log[i] && forall j | 0 <= j < i :: longer[j] == log[j];
  }

  lemma FirstSeenLast(order: seq<string>, log: Log, e: Event)
    requires forall o :: o in order <==> Of(log, o) != []
    ensures FirstSeen(order + [e.operation], log + [e], |order|)
  {
    var i, longer := |log|, log + [e];
    assert (order + [e.operation])[..|order|] == order;
    forall j | 0 <= j < i
      ensures longer[j].operation in order
    {
      OfMembers(log, log[j].operation);
      assert log[j] in Of(log, log[j].operation);
    }
    assert longer[i].operation == (order + [e.operation])[|order|];
  }

  /** An event of a listed operation changes no listing; one of a new operation extends it. */
  lemma ListsOneMore(order: seq<string>, log: Log, e: Event)
    requires Lists(order, log)
    ensures Lists(if e.operation in order then order else order + [e.operation], log + [e])
  {
    forall o
      ensures Of(log + [e], o) != [] <==> Of(log, o) != [] || e.operation == o
    {
      OfOneMore(log, e, o);
    }
    var longer := if e.operation in order then order else order + [e.operation];
    forall k | 0 <= k < |longer|
      ensures FirstSeen(longer, log + [e], k)
    {
      FirstSeenOneMore(order, log, e, k);
    }
  }

  lemma FirstSeenOneMore(order: seq<string>, log: Log, e: Event, k: nat)
    requires Lists(order, log)
    requires k < |if e.operation in order then order else order + [e.operation]|
    ensures FirstSeen(if e.operation in order then order else order + [e.operation], log + [e], k)
  {
    if e.operation in order {
      assert order + [] == order;
      FirstSeenStays(order, [], log, e, k);
    } else if k < |order| {
      FirstSeenStays(order, [e.operation], log, e, k);
    } else {
      FirstSeenLast(order, log, e);
    }
  }

  /** The groups hold, for each operation of the log, its events. */
  ghost predicate Grouped(byOperation: map<string, Log>, log: Log) {
    && (forall o :: o in byOperation <==> Of(log, o) != [])
    && (forall o | o in byOperation :: byOperation[o] == Of(log, o))
  }

  function GroupOf(byOperation: map<string, Log>, operation: string): Log {
    if operation in byOperation then byOperation[operation] else []
  }

  lemma GroupedOneMore(byOperation: map<string, Log>, log: Log, e: Event)
    requires Grouped(byOperation, log)
    ensures Grouped(byOperation[e.operation := GroupOf(byOperation, e.operation) + [e]], log + [e])
  {
    var longer := byOperation[e.operation := GroupOf(byOperation, e.operation) + [e]];
    forall o
      ensures GroupOf(longer, o) == Of(log + [e], o) && (o in longer <==> Of(log + [e], o) != [])
    {
      OfOneMore(log, e, o);
      GroupOfGrouped(byOperation, log, o);
    }
    assert forall o | o in longer :: longer[o] == GroupOf(longer, o);
  }

  lemma GroupOfGrouped(byOperation: map<string, Log>, log: Log, o: string)
    requires Grouped(byOperation, log)
    ensures GroupOf(byOperation, o) == Of(log, o)
  {
  }

  method GroupByOperation(events: Log) returns (byOperation: map<string, Log>, order: seq<string>)
    ensures Lists(order, events) && Grouped(byOperation, events)
  {
    byOperation, order := map[], [];
    var i := 0;
    assert events[..0] == [];
    while i < |events|
      invariant 0 <= i <= |events|
      invariant Lists(order, events[..i]) && Grouped(byOperation, events[..i])
    {
      var e := events[i];
      assert events[..i + 1] == events[..i] + [e];
      ListsOneMore(order, events[..i], e);
      GroupedOneMore(byOperation, events[..i], e);
      if e.operation !in byOperation {
        order := order + [e.operation];
      }
      byOperation := byOperation[e.operation := GroupOf(byOperation, e.operation) + [e]];
      i := i + 1;
    }
    assert events[..i] == events;
  }

  /** The later sealed of two approvals; the one found first when neither is later. */
  function Later(a: Option<Approval>, b: Option<Approval>): Option<Approval> {
    if b.Some? && (a == None || a.value.sealedAt < b.value.sealedAt) then b else a
  }

  predicate NotLater(a: Option<Approval>, b: Option<Approval>) {
    a.Some? ==> b.Some? && a.value.sealedAt <= b.value.sealedAt
  }

  predicate Earlier(a: Option<Approval>, b: Option<Approval>) {
    a.Some? ==> b.Some? && a.value.sealedAt < b.value.sealedAt
  }

  /** a is the first of the latest sealed candidates, if there is any approval among them. */
  ghost predicate FirstLatest(a: Option<Approval>, candidates: seq<Option<Approval>>) {
    && (forall c | c in candidates :: NotLater(c, a))
    && (a.Some? ==>
          exists k | 0 <= k < |candidates| :: candidates[k] == a && forall j | 0 <= j < k :: Earlier(candidates[j], a))
  }

  lemma FirstLatestOneMore(a: Option<Approval>, candidates: seq<Option<Approval>>, c: Option<Approval>)
    requires FirstLatest(a, candidates)
    ensures FirstLatest(Later(a, c), candidates + [c])
  {
    var longer, n := candidates + [c], |candidates|;
    if Later(a, c) == a {
      if a.Some? {
        var k :| 0 <= k < n && candidates[k] == a && forall j | 0 <= j < k :: Earlier(candidates[j], a);
        assert longer[k] == a && forall j | 0 <= j < k :: longer[j] == candidates[j];
      }
    } else {
      forall j | 0 <= j < n
        ensures Earlier(longer[j], c)
      {
        assert longer[j] == candidates[j] && candidates[j] in candidates;
      }
      assert longer[n] == c;
    }
  }

  /** What every operation of a log amounts to. */
  ghost predicate Projected(candidates: seq<Option<Approval>>, order: seq<string>, log: Log, revision: string) {
    |candidates| == |order| && forall k | 0 <= k < |order| :: candidates[k] == Qualify(Of(log, order[k]), revision)
  }

  /** What the operation of the i-th event amounts to. */
  function AmountsTo(log: Log, i: nat, revision: string): Option<Approval>
    requires i < |log|
  {
    Qualify(Of(log, log[i].operation), revision)
  }

  lemma UnlistedIsNothing(order: seq<string>, log: Log, revision: string, o: string)
    requires Lists(order, log) && o !in order
    ensures Qualify(Of(log, o), revision) == None
  {
    assert Of(log, o) == [];
  }

  lemma NoneIsLater(a: Option<Approval>, candidates: seq<Option<Approval>>, order: seq<string>, log: Log,
                    revision: string, o: string)
    requires Lists(order, log) && Projected(candidates, order, log, revision) && FirstLatest(a, candidates)
    ensures NotLater(Qualify(Of(log, o), revision), a)
  {
    if o in order {
      var k :| 0 <= k < |order| && order[k] == o;
      assert candidates[k] in candidates;
    } else {
      UnlistedIsNothing(order, log, revision, o);
    }
  }

  /** The chosen approval belongs to an operation whose first event stands before those of all
      others sealed at the same instant. */
  lemma FirstOverAll(a: Option<Approval>, candidates: seq<Option<Approval>>, order: seq<string>, log: Log,
                     revision: string)
    returns (i: nat)
    requires Lists(order, log) && Projected(candidates, order, log, revision) && FirstLatest(a, candidates) && a.Some?
    ensures i < |log| && AmountsTo(log, i, revision) == a
    ensures forall j: nat | j < i :: Earlier(AmountsTo(log, j, revision), a)
  {
    var k :| 0 <= k < |candidates| && candidates[k] == a && forall j | 0 <= j < k :: Earlier(candidates[j], a);
    assert FirstSeen(order, log, k);
    i :| 0 <= i < |log| && log[i].operation == order[k] && forall j | 0 <= j < i :: log[j].operation in order[..k];
    forall j: nat | j < i
      ensures Earlier(AmountsTo(log, j, revision), a)
    {
      EarlierInOrder(a, candidates, order, log, revision, k, log[j].operation);
    }
  }

  lemma EarlierInOrder(a: Option<Approval>, candidates: seq<Option<Approval>>, order: seq<string>, log: Log,
                       revision: string, k: nat, o: string)
    requires Projected(candidates, order, log, revision) && k <= |order| && o in order[..k]
    requires forall j | 0 <= j < k :: Earlier(candidates[j], a)
    ensures Earlier(Qualify(Of(log, o), revision), a)
  {
    var m :| 0 <= m < k && order[..k][m] == o;
    assert candidates[m] == Qualify(Of(log, order[m]), revision);
  }

  /** Some operation of the log has sealed an approval for the revision. */
  ghost predicate AnySealed(log: Log, revision: string) {
    exists o: string, a: nat, b: nat :: SealedIn(log, a, b, o, revision)
  }

  /** Operation o, if it is another one, first appears before p does. */
  ghost predicate StartsNoLater(log: Log, o: string, p: string) {
    o == p || exists i: nat | i < |log| ::
      log[i].operation == o && forall j: nat | j < |log| && log[j].operation == p :: i < j
  }

  /** The approval is what some pair of events says, and of all such pairs the latest sealed;
      of those sealed at the same instant, the one whose operation appears first. */
  ghost predicate LatestSealed(log: Log, revision: string, approval: Approval) {
    exists a: nat, b: nat ::
      && SealedIn(log, a, b, approval.operation, revision)
      && approval == ApprovalOf(log[a], log[b], revision)
      && forall o: string, a': nat, b': nat | SealedIn(log, a', b', o, revision) ::
           && log[b'].createdAt <= approval.sealedAt
           && (log[b'].createdAt == approval.sealedAt ==> StartsNoLater(log, approval.operation, o))
  }

  lemma NoLaterSeal(log: Log, revision: string, r: Option<Approval>, o: string, a: nat, b: nat)
    requires NotLater(Qualify(Of(log, o), revision), r) && SealedIn(log, a, b, o, revision)
    ensures r.Some? && log[b].createdAt <= r.value.sealedAt
    ensures Qualify(Of(log, o), revision).Some? && Qualify(Of(log, o), revision).value.sealedAt == log[b].createdAt
  {
    ApprovalWrittenOut(log, o, revision);
  }

  lemma StartsFirst(log: Log, revision: string, r: Approval, i: nat, o: string)
    requires i < |log| && log[i].operation == r.operation && o != r.operation
    requires forall j: nat | j < i :: Earlier(AmountsTo(log, j, revision), Some(r))
    requires Qualify(Of(log, o), revision).Some? && Qualify(Of(log, o), revision).value.sealedAt == r.sealedAt
    ensures StartsNoLater(log, r.operation, o)
  {
    forall j: nat | j < |log| && log[j].operation == o
      ensures i < j
    {
      assert j < i ==> Earlier(AmountsTo(log, j, revision), Some(r));
    }
  }

  lemma SealBehind(log: Log, revision: string, r: Approval, i: nat) returns (a: nat, b: nat)
    requires i < |log| && AmountsTo(log, i, revision) == Some(r)
    ensures SealedIn(log, a, b, r.operation, revision) && r == ApprovalOf(log[a], log[b], revision)
    ensures log[i].operation == r.operation
  {
    ApprovalWrittenOut(log, log[i].operation, revision);
    a, b :| SealedIn(log, a, b, log[i].operation, revision);
  }

  lemma NoneSealedLater(log: Log, revision: string, r: Approval, i: nat, o: string, a: nat, b: nat)
    requires NotLater(Qualify(Of(log, o), revision), Some(r)) && SealedIn(log, a, b, o, revision)
    requires i < |log| && log[i].operation == r.operation
    requires forall j: nat | j < i :: Earlier(AmountsTo(log, j, revision), Some(r))
    ensures log[b].createdAt <= r.sealedAt
    ensures log[b].createdAt == r.sealedAt ==> StartsNoLater(log, r.operation, o)
  {
    NoLaterSeal(log, revision, Some(r), o, a, b);
    if log[b].createdAt == r.sealedAt && o != r.operation {
      StartsFirst(log, revision, r, i, o);
    }
  }

  lemma LatestWrittenOutIs(log: Log, revision: string, r: Approval, i: nat)
    requires forall o :: NotLater(Qualify(Of(log, o), revision), Some(r))
    requires i < |log| && AmountsTo(log, i, revision) == Some(r)
    requires forall j: nat | j < i :: Earlier(AmountsTo(log, j, revision), Some(r))
    ensures LatestSealed(log, revision, r) && AnySealed(log, revision)
  {
    var a, b := SealBehind(log, revision, r, i);
    forall o: string, a': nat, b': nat | SealedIn(log, a', b', o, revision)
      ensures log[b'].createdAt <= r.sealedAt
      ensures log[b'].createdAt == r.sealedAt ==> StartsNoLater(log, r.operation, o)
    {
      NoneSealedLater(log, revision, r, i, o, a', b');
    }
  }

  lemma NothingSealed(log: Log, revision: string)
    requires forall o :: NotLater(Qualify(Of(log, o), revision), None)
    ensures !AnySealed(log, revision)
  {
    if o: string, a: nat, b: nat :| SealedIn(log, a, b, o, revision) {
      NoLaterSeal(log, revision, None, o, a, b);
    }
  }

  lemma ChosenWrittenOut(a: Option<Approval>, candidates: seq<Option<Approval>>, order: seq<string>, log: Log,
                         revision: string)
    requires Lists(order, log) && Projected(candidates, order, log, revision) && FirstLatest(a, candidates)
    ensures forall o :: NotLater(Qualify(Of(log, o), revision), a)
    ensures a.Some? <==> AnySealed(log, revision)
    ensures a.Some? ==> LatestSealed(log, revision, a.value)
  {
    forall o
      ensures NotLater(Qualify(Of(log, o), revision), a)
    {
      NoneIsLater(a, candidates, order, log, revision, o);
    }
    if a.Some? {
      var first := FirstOverAll(a, candidates, order, log, revision);
      LatestWrittenOutIs(log, revision, a.value, first);
    } else {
      NothingSealed(log, revision);
    }
  }

  /** The latest sealed approval for a revision over every operation in the log; of those sealed
      at the same instant, the one whose operation appears first. */
  method SealedCanaryApprovalForRevision(events: Log, revision: string) returns (r: Option<Approval>)
    ensures forall o :: NotLater(Qualify(Of(events, o), revision), r)
    ensures r.Some? <==> AnySealed(events, revision)
    ensures r.Some? ==> LatestSealed(events, revision, r.value)
  {
    var byOperation, order := GroupByOperation(events);
    ghost var candidates := [];
    r := None;
    var i := 0;
    while i < |order|
      invariant 0 <= i <= |order|
      invariant Projected(candidates, order[..i], events, revision) && FirstLatest(r, candidates)
    {
      var approval := Qualify(byOperation[order[i]], revision);
      FirstLatestOneMore(r, candidates, approval);
      candidates := candidates + [approval];
      r := Later(r, approval);
      i := i + 1;
    }
    assert order[..i] == order;
    ChosenWrittenOut(r, candidates, order, events, revision);
  }
}
