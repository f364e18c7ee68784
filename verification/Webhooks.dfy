/**
 Provider events on the whole payout table: an event finds its rows by provider
 reference, else by the external reference of their ledger transaction.
 */
module Webhooks {
  import opened Wrappers
  import opened Fees
  import opened Payouts
  import PayoutLife

  // External references by ledger transaction.
  type ExternalRefs = map<Id, string>

  // An event after _extract_refs, with what `order by updated_at desc limit 1` answers: to the two
  // lookups before the update, and to the external lookup after the update by provider reference.
  datatype Event = Event(pref: Option<string>, eref: Option<string>, notice: Notice, now: int,
                         byProvider: Option<Id>, byExternal: Option<Id>, fallback: Option<Id>)

  datatype Reply = NotFound | Updated | AlreadyConfirmed | AlreadyFailed | NotUpdated

  predicate HasProviderRef(row: Payout, pref: Option<string>) { pref.Some? && row.ref == pref }

  predicate HasExternalRef(row: Payout, ext: ExternalRefs, eref: Option<string>) {
    eref.Some? && row.txn in ext && ext[row.txn] == eref.value
  }

  predicate Named(row: Payout, ext: ExternalRefs, ev: Event) {
    HasProviderRef(row, ev.pref) || HasExternalRef(row, ext, ev.eref)
  }

  // A lookup answers with a latest matching row, or with none when there is none.
  ghost predicate LatestByProvider(rows: Table, pref: Option<string>, found: Option<Id>) {
    if found.Some? then
      && found.value in rows && HasProviderRef(rows[found.value], pref)
      && (forall id :: id in rows && HasProviderRef(rows[id], pref) ==>
            rows[id].updatedAt <= rows[found.value].updatedAt)
    else forall id :: id in rows ==> !HasProviderRef(rows[id], pref)
  }

  ghost predicate LatestByExternal(rows: Table, ext: ExternalRefs, eref: Option<string>, found: Option<Id>) {
    if found.Some? then
      && found.value in rows && HasExternalRef(rows[found.value], ext, eref)
      && (forall id :: id in rows && HasExternalRef(rows[id], ext, eref) ==>
            rows[id].updatedAt <= rows[found.value].updatedAt)
    else forall id :: id in rows ==> !HasExternalRef(rows[id], ext, eref)
  }

  // Every lookup is true of the table as it is when the lookup runs.
  ghost predicate TrueLookups(rows: Table, ext: ExternalRefs, ev: Event, override: bool) {
    && LatestByProvider(rows, ev.pref, ev.byProvider)
    && LatestByExternal(rows, ext, ev.eref, ev.byExternal)
    && LatestByExternal(AfterProviderRef(rows, ev, override), ext, ev.eref, ev.fallback)
  }

  // The rows that update_status_by_provider_ref writes.
  function Hit(rows: Table, pref: string, override: bool): set<Id> {
    set id | id in rows && rows[id].ref == Some(pref) && (override || !Terminal(rows[id].status))
  }

  function UpdateByProviderRef(rows: Table, pref: string, n: Notice, override: bool, now: int): Table {
    map id | id in rows :: if rows[id].ref == Some(pref) then MergeRow(rows[id], n, override, now) else rows[id]
  }

  function MergeById(rows: Table, id: Id, n: Notice, override: bool, now: int): Table {
    if id in rows then rows[id := MergeRow(rows[id], n, override, now)] else rows
  }

  predicate WritesById(rows: Table, id: Id, override: bool) {
    id in rows && (override || !Terminal(rows[id].status))
  }

  // update_status_by_any_ref: the table after it and what it returns.
  function AfterProviderRef(rows: Table, ev: Event, override: bool): Table {
    if ev.pref.Some? then UpdateByProviderRef(rows, ev.pref.value, ev.notice, override, ev.now) else rows
  }

  predicate OneHit(rows: Table, ev: Event, override: bool) {
    ev.pref.Some? && |Hit(rows, ev.pref.value, override)| == 1
  }

  function AfterAnyRef(rows: Table, ev: Event, override: bool): Table {
    var first := AfterProviderRef(rows, ev, override);
    if OneHit(rows, ev, override) || ev.eref.None? || ev.fallback.None? then first
    else MergeById(first, ev.fallback.value, ev.notice, override, ev.now)
  }

  predicate ReportsOk(rows: Table, ev: Event, override: bool) {
    OneHit(rows, ev, override)
    || (ev.eref.Some? && ev.fallback.Some?
        && WritesById(AfterProviderRef(rows, ev, override), ev.fallback.value, override))
  }

  // get_payout_by_any_ref.
  function Existing(ev: Event): Option<Id> {
    if ev.pref.Some? && ev.byProvider.Some? then ev.byProvider
    else if ev.eref.Some? then ev.byExternal
    else None
  }

  function Handle(rows: Table, ev: Event): Table {
    if Existing(ev).None? then rows else AfterAnyRef(rows, ev, false)
  }

  function ReplyTo(rows: Table, ev: Event): Reply {
    var existing := Existing(ev);
    if existing.None? || existing.value !in rows then NotFound
    else if ReportsOk(rows, ev, false) then Updated
    else
      match rows[existing.value].status
      case CONFIRMED => AlreadyConfirmed
      case FAILED => AlreadyFailed
      case _ => NotUpdated
  }

  function HandleAll(rows: Table, evs: seq<Event>): Table {
    if evs == [] then rows else HandleAll(Handle(rows, evs[0]), evs[1..])
  }

  // Every lookup along the run is true of the table it reads.
  ghost predicate TrueRun(rows: Table, ext: ExternalRefs, evs: seq<Event>) {
    evs != [] ==> TrueLookups(rows, ext, evs[0], false) && TrueRun(Handle(rows, evs[0]), ext, evs[1..])
  }

  /* ---- an event acts row by row ---- */

  lemma MergeTwice(row: Payout, n: Notice, override: bool, now: int)
    ensures MergeRow(MergeRow(row, n, override, now), n, override, now) == MergeRow(row, n, override, now)
  {
    var base := if row.response.Some? then row.response.value else map[];
    assert (base + n.payload) + n.payload == base + n.payload;
  }

  /** Whatever an event names, each row is either untouched or merged once, exactly as that row's
      own Webhook or Replay step; so every theorem about one row's life holds for table events. */
  lemma EventsAreRowSteps(rows: Table, ext: ExternalRefs, ev: Event, override: bool, id: Id)
    requires TrueLookups(rows, ext, ev, override) && id in rows
    ensures var after := AfterAnyRef(rows, ev, override);
            && after.Keys == rows.Keys
            && (after[id] == rows[id] || after[id] == PayoutLife.Apply(rows[id],
                  PayoutLife.Replay(ev.now, ev.notice, override)))
            && (!Named(rows[id], ext, ev) ==> after[id] == rows[id])
  {
    MergeTwice(rows[id], ev.notice, override, ev.now);
  }

  // The rows that carry the provider reference and may be written.
  function Writable(rows: Table, ev: Event, override: bool): set<Id> {
    set id | id in rows && ev.pref.Some? && rows[id].ref == ev.pref && (override || !Terminal(rows[id].status))
  }

  // The event merges into the row: it carries the provider reference, or, unless exactly one row with that
  // reference was written, it is the one found by the external reference.
  predicate Merges(rows: Table, ev: Event, override: bool, id: Id)
    requires id in rows
  {
    || (ev.pref.Some? && rows[id].ref == ev.pref)
    || (|Writable(rows, ev, override)| != 1 && ev.eref.Some? && ev.fallback == Some(id))
  }

  /** Exactly which rows an event or a replay merges. */
  lemma AnyRefMergesExactly(rows: Table, ev: Event, override: bool)
    ensures AfterAnyRef(rows, ev, override)
            == map id | id in rows ::
                 if Merges(rows, ev, override, id) then MergeRow(rows[id], ev.notice, override, ev.now) else rows[id]
  {
    if ev.pref.Some? { assert Hit(rows, ev.pref.value, override) == Writable(rows, ev, override); }
    if ev.fallback.Some? && ev.fallback.value in rows {
      MergeTwice(rows[ev.fallback.value], ev.notice, override, ev.now);
    }
    hide MergeRow, Hit, Writable;
  }

  /* ---- first terminal event wins ---- */

  // The event's references name this row and no other.
  ghost predicate NamesOnly(rows: Table, ext: ExternalRefs, ev: Event, id: Id) {
    forall j :: j in rows ==> (Named(rows[j], ext, ev) <==> j == id)
  }

  lemma OnlyHit(rows: Table, ext: ExternalRefs, ev: Event, id: Id)
    requires id in rows && NamesOnly(rows, ext, ev, id) && ev.pref.Some?
    ensures Hit(rows, ev.pref.value, false)
            == if rows[id].ref == ev.pref && !Terminal(rows[id].status) then {id} else {}
  {
  }

  lemma NamedRowChanges(rows: Table, ext: ExternalRefs, ev: Event, id: Id)
    requires id in rows && NamesOnly(rows, ext, ev, id) && TrueLookups(rows, ext, ev, false)
    ensures Existing(ev) == Some(id)
    ensures AfterAnyRef(rows, ev, false)[id] == MergeRow(rows[id], ev.notice, false, ev.now)
    ensures ReportsOk(rows, ev, false) <==> !Terminal(rows[id].status)
  {
    if ev.pref.Some? { OnlyHit(rows, ext, ev, id); }
    if ev.byProvider.Some? { assert Named(rows[ev.byProvider.value], ext, ev); }
    if ev.byExternal.Some? { assert Named(rows[ev.byExternal.value], ext, ev); }
    if ev.fallback.Some? { assert Named(rows[ev.fallback.value], ext, ev); }
    assert Named(rows[id], ext, ev);
    assert ev.fallback.None? ==> !HasExternalRef(AfterProviderRef(rows, ev, false)[id], ext, ev.eref);
    MergeTwice(rows[id], ev.notice, false, ev.now);
  }

  // What such an event leaves: the row merged, or unchanged when it had ended.
  lemma HandleNamed(rows: Table, ext: ExternalRefs, ev: Event, id: Id)
    requires id in rows && NamesOnly(rows, ext, ev, id) && TrueLookups(rows, ext, ev, false)
    ensures Handle(rows, ev) == rows[id := MergeRow(rows[id], ev.notice, false, ev.now)]
    ensures ReplyTo(rows, ev) == match rows[id].status
                                 case CONFIRMED => AlreadyConfirmed
                                 case FAILED => AlreadyFailed
                                 case _ => Updated
  {
    NamedRowChanges(rows, ext, ev, id);
    hide AfterAnyRef, MergeRow;
    forall j | j in rows
      ensures Handle(rows, ev)[j] == rows[id := MergeRow(rows[id], ev.notice, false, ev.now)][j]
    {
      EventsAreRowSteps(rows, ext, ev, false, j);
    }
  }

  // Independent reading of a sequence of events, none of which looks at a table.
  function FirstTerminal(evs: seq<Event>): (k: nat)
    ensures k <= |evs|
  {
    if evs == [] || Terminal(evs[0].notice.status) then 0 else 1 + FirstTerminal(evs[1..])
  }

  function Settling(evs: seq<Event>): (k: nat)
    ensures k <= |evs|
  {
    if FirstTerminal(evs) < |evs| then FirstTerminal(evs) + 1 else |evs|
  }

  function MergedPayloads(response: Json, evs: seq<Event>): Json
    decreases |evs|
  {
    if evs == [] then response else MergedPayloads(response + evs[0].notice.payload, evs[1..])
  }

  function Told(row: Payout, evs: seq<Event>): Payout
    requires evs != []
  {
    var last := evs[Settling(evs) - 1];
    row.(status := last.notice.status,
         response := Some(MergedPayloads(if row.response.Some? then row.response.value else map[],
                                         evs[..Settling(evs)])),
         lastError := last.notice.error, retryable := last.notice.retryable, nextRetry := None,
         updatedAt := last.now)
  }

  lemma StillNamedAll(rows: Table, ext: ExternalRefs, evs: seq<Event>, id: Id, row: Payout)
    requires id in rows && row.ref == rows[id].ref && row.txn == rows[id].txn
    requires forall i :: 0 <= i < |evs| ==> NamesOnly(rows, ext, evs[i], id)
    ensures forall i :: 0 <= i < |evs| ==> NamesOnly(rows[id := row], ext, evs[i], id)
  {
  }

  function Merged(rows: Table, ev: Event, id: Id): Table
    requires id in rows
  {
    rows[id := MergeRow(rows[id], ev.notice, false, ev.now)]
  }

  // One event of a run whose events all name the same row.
  lemma StepNamed(rows: Table, ext: ExternalRefs, evs: seq<Event>, id: Id)
    requires evs != [] && id in rows && TrueRun(rows, ext, evs)
    requires forall i :: 0 <= i < |evs| ==> NamesOnly(rows, ext, evs[i], id)
    ensures Handle(rows, evs[0]) == Merged(rows, evs[0], id)
    ensures TrueRun(Merged(rows, evs[0], id), ext, evs[1..])
    ensures forall i :: 0 <= i < |evs[1..]| ==> NamesOnly(Merged(rows, evs[0], id), ext, evs[1..][i], id)
  {
    HandleNamed(rows, ext, evs[0], id);
    StillNamedAll(rows, ext, evs, id, MergeRow(rows[id], evs[0].notice, false, evs[0].now));
  }

  lemma {:induction false} SettledStays(rows: Table, ext: ExternalRefs, evs: seq<Event>, id: Id)
    requires id in rows && Terminal(rows[id].status) && TrueRun(rows, ext, evs)
    requires forall i :: 0 <= i < |evs| ==> NamesOnly(rows, ext, evs[i], id)
    ensures HandleAll(rows, evs) == rows
  {
    if evs != [] {
      HandleNamed(rows, ext, evs[0], id);
      assert Handle(rows, evs[0]) == rows;
      SettledStays(rows, ext, evs[1..], id);
    }
  }

  lemma ToldNext(row: Payout, evs: seq<Event>)
    requires |evs| >= 2 && !Terminal(evs[0].notice.status) && !Terminal(row.status)
    ensures Told(row, evs) == Told(MergeRow(row, evs[0].notice, false, evs[0].now), evs[1..])
  {
    assert Settling(evs) == Settling(evs[1..]) + 1;
    assert evs[..Settling(evs)][1..] == evs[1..][..Settling(evs[1..])];
  }

  lemma ToldFirst(row: Payout, evs: seq<Event>)
    requires evs != [] && !Terminal(row.status) && (Terminal(evs[0].notice.status) || |evs| == 1)
    ensures Told(row, evs) == MergeRow(row, evs[0].notice, false, evs[0].now)
  {
    if !Terminal(evs[0].notice.status) {
      assert FirstTerminal(evs[1..]) == 0;
    }
    assert Settling(evs) == 1 && evs[..1] == [evs[0]];
    var base := if row.response.Some? then row.response.value else map[];
    assert MergedPayloads(base, [evs[0]]) == MergedPayloads(base + evs[0].notice.payload, []);
  }

  lemma {:induction false} ToldStatus(row: Payout, evs: seq<Event>)
    requires evs != []
    ensures Told(row, evs).status
            == if FirstTerminal(evs) < |evs| then evs[FirstTerminal(evs)].notice.status else SENT
  {
    if !Terminal(evs[0].notice.status) && |evs| > 1 { ToldStatus(row, evs[1..]); }
  }

  lemma NoEvents(rows: Table, evs: seq<Event>)
    requires evs == []
    ensures HandleAll(rows, evs) == rows
  {
  }

  lemma HandleAllNext(rows: Table, evs: seq<Event>, mid: Table)
    requires evs != [] && Handle(rows, evs[0]) == mid
    ensures HandleAll(rows, evs) == HandleAll(mid, evs[1..])
  {
    hide Handle;
  }

  lemma MergedLive(rows: Table, ev: Event, id: Id)
    requires id in rows && !Terminal(rows[id].status)
    ensures id in Merged(rows, ev, id) && Merged(rows, ev, id)[id] == MergeRow(rows[id], ev.notice, false, ev.now)
    ensures Merged(rows, ev, id)[id].status == ev.notice.status
  {
  }

  lemma {:induction false} TableTold(rows: Table, ext: ExternalRefs, evs: seq<Event>, id: Id)
    requires evs != [] && id in rows && !Terminal(rows[id].status) && TrueRun(rows, ext, evs)
    requires forall i :: 0 <= i < |evs| ==> NamesOnly(rows, ext, evs[i], id)
    ensures HandleAll(rows, evs) == rows[id := Told(rows[id], evs)]
  {
    hide HandleAll, Handle, TrueRun, NamesOnly, Told, MergeRow, Terminal;
    var ev, row, mid := evs[0], rows[id], Merged(rows, evs[0], id);
    StepNamed(rows, ext, evs, id);
    HandleAllNext(rows, evs, mid);
    MergedLive(rows, ev, id);
    if Terminal(ev.notice.status) {
      SettledStays(mid, ext, evs[1..], id);
      ToldFirst(row, evs);
    } else if |evs| == 1 {
      NoEvents(mid, evs[1..]);
      ToldFirst(row, evs);
    } else {
      TableTold(mid, ext, evs[1..], id);
      ToldNext(row, evs);
    }
  }

  /** For any sequence of events whose references name one live payout: it ends with the status of
      the first terminal event (SENT when there is none) and the right-biased merge of its response
      and the payloads up to that event; later events, and every other row, change nothing. */
  lemma {:induction false} FirstTerminalWins(rows: Table, ext: ExternalRefs, evs: seq<Event>, id: Id)
    requires evs != [] && id in rows && !Terminal(rows[id].status) && TrueRun(rows, ext, evs)
    requires forall i :: 0 <= i < |evs| ==> NamesOnly(rows, ext, evs[i], id)
    ensures HandleAll(rows, evs) == rows[id := Told(rows[id], evs)]
    ensures Told(rows[id], evs).status
            == if FirstTerminal(evs) < |evs| then evs[FirstTerminal(evs)].notice.status else SENT
  {
    ToldStatus(rows[id], evs);
    TableTold(rows, ext, evs, id);
  }

  // A received status word, trimmed and upper case, with its provider and payload.
  datatype Word = Word(raw: string, provider: string, payload: Json)

  predicate ThunesWord(w: Word) { w.provider == "THUNES" }

  predicate ConfirmingWord(w: Word) {
    || w.raw == "SUCCESS" || w.raw == "SUCCESSFUL" || w.raw == "CONFIRMED" || w.raw == "COMPLETED"
    || (ThunesWord(w) && w.raw == "PAID")
  }

  // THUNES declines and rejects with any text after the word, the others reject with the bare word.
  predicate FailingWord(w: Word) {
    || w.raw == "FAILED" || w.raw == "CANCELLED" || w.raw == "CANCELED"
    || (!ThunesWord(w) && w.raw == "REJECTED")
    || (ThunesWord(w) && |w.raw| >= 8 && (w.raw[..8] == "DECLINED" || w.raw[..8] == "REJECTED"))
  }

  predicate InFlightWord(w: Word) { !ConfirmingWord(w) && !FailingWord(w) }

  lemma WordEndsOneWay(w: Word)
    ensures !(ConfirmingWord(w) && FailingWord(w))
  {
    if ConfirmingWord(w) {
      assert w.raw[0] in {'S', 'C', 'P'} && w.raw[1] in {'U', 'O', 'A'} && |w.raw| != 8;
      if |w.raw| >= 8 { assert w.raw[..8][0] == w.raw[0]; }
    }
  }

  // The notice of a word ends the payout the way the word says, and names the word that fails it.
  lemma WordIsMapped(w: Word)
    ensures var n := NoticeOf(w.raw, w.provider, w.payload);
            && (n.status == CONFIRMED <==> ConfirmingWord(w)) && (n.status == FAILED <==> FailingWord(w))
            && (Terminal(n.status) <==> !InFlightWord(w))
            && n.error == (if FailingWord(w) then Some(w.raw) else None)
            && "_provider" in n.payload && n.payload["_provider"] == w.provider
  {
    WordEndsOneWay(w);
    assert StartsWith(w.raw, "DECLINED") <==> |w.raw| >= 8 && w.raw[..8] == "DECLINED";
    assert StartsWith(w.raw, "REJECTED") <==> |w.raw| >= 8 && w.raw[..8] == "REJECTED";
  }

  lemma {:induction false} FirstTerminalIsFirst(evs: seq<Event>)
    ensures var k := FirstTerminal(evs);
            && (forall j :: 0 <= j < k ==> !Terminal(evs[j].notice.status))
            && (k < |evs| ==> Terminal(evs[k].notice.status))
  {
    if evs != [] && !Terminal(evs[0].notice.status) {
      FirstTerminalIsFirst(evs[1..]);
      forall j | 0 <= j < FirstTerminal(evs)
        ensures !Terminal(evs[j].notice.status)
      {
        if j > 0 { assert evs[j] == evs[1..][j - 1]; }
      }
    }
  }

  // The k-th word is the first that is not in flight.
  predicate Decides(words: seq<Word>, k: nat) {
    k < |words| && !InFlightWord(words[k]) && forall j :: 0 <= j < k ==> InFlightWord(words[j])
  }

  lemma DecidesIsFirst(evs: seq<Event>, words: seq<Word>, k: nat)
    requires |words| == |evs|
    requires forall i :: 0 <= i < |evs| ==> (Terminal(evs[i].notice.status) <==> !InFlightWord(words[i]))
    ensures Decides(words, k) <==> k < |words| && k == FirstTerminal(evs)
  {
    FirstTerminalIsFirst(evs);
    hide FirstTerminal, InFlightWord, Terminal;
    var first := FirstTerminal(evs);
    assert first < |evs| ==> !InFlightWord(words[first]);
    assert forall j :: 0 <= j < first ==> InFlightWord(words[j]);
  }

  lemma {:induction false} LastPayloadStays(response: Json, evs: seq<Event>, name: string)
    requires evs != [] && name in evs[|evs| - 1].notice.payload
    ensures var merged := MergedPayloads(response, evs);
            name in merged && merged[name] == evs[|evs| - 1].notice.payload[name]
    decreases |evs|
  {
    if |evs| == 1 {
      assert MergedPayloads(response + evs[0].notice.payload, evs[1..]) == response + evs[0].notice.payload;
    } else {
      LastPayloadStays(response + evs[0].notice.payload, evs[1..], name);
    }
  }

  // What the deciding word leaves, or, when every word is in flight, the last one.
  lemma ToldByWords(row: Payout, evs: seq<Event>, words: seq<Word>)
    requires evs != [] && |words| == |evs|
    requires forall i :: 0 <= i < |evs| ==> evs[i].notice == NoticeOf(words[i].raw, words[i].provider, words[i].payload)
    ensures var told, last := Told(row, evs), words[Settling(evs) - 1];
            && told.status == (if ConfirmingWord(last) then CONFIRMED else if FailingWord(last) then FAILED else SENT)
            && told.lastError == (if FailingWord(last) then Some(last.raw) else None)
            && (told.retryable <==> InFlightWord(last)) && told.nextRetry == None
            && told.response.Some? && "_provider" in told.response.value
            && told.response.value["_provider"] == last.provider
  {
    var k := Settling(evs);
    var base := if row.response.Some? then row.response.value else map[];
    WordIsMapped(words[k - 1]);
    assert evs[..k][|evs[..k]| - 1] == evs[k - 1];
    LastPayloadStays(base, evs[..k], "_provider");
    hide ConfirmingWord, FailingWord, MergedPayloads, Settling, NoticeOf;
  }

  /** In the words of the providers: the payout ends CONFIRMED exactly when some word is SUCCESS,
      SUCCESSFUL, CONFIRMED, COMPLETED or THUNES' PAID and every word before it is in flight, FAILED exactly
      when some word is a failing one and every word before it is in flight, and stays SENT when all are.
      Its error is the word that failed it. */
  lemma FirstEndingWordWins(rows: Table, ext: ExternalRefs, evs: seq<Event>, words: seq<Word>, id: Id)
    requires evs != [] && id in rows && !Terminal(rows[id].status) && TrueRun(rows, ext, evs)
    requires forall i :: 0 <= i < |evs| ==> NamesOnly(rows, ext, evs[i], id)
    requires |words| == |evs|
    requires forall i :: 0 <= i < |evs| ==> evs[i].notice == NoticeOf(words[i].raw, words[i].provider, words[i].payload)
    ensures id in HandleAll(rows, evs)
    ensures var row := HandleAll(rows, evs)[id];
            && (row.status == CONFIRMED <==> exists k: nat :: Decides(words, k) && ConfirmingWord(words[k]))
            && (row.status == FAILED <==> exists k: nat :: Decides(words, k) && FailingWord(words[k]))
            && (row.status == SENT <==> forall k :: 0 <= k < |words| ==> InFlightWord(words[k]))
            && (forall k: nat :: Decides(words, k) ==>
                  && row.lastError == (if FailingWord(words[k]) then Some(words[k].raw) else None)
                  && !row.retryable && row.nextRetry == None
                  && row.response.Some? && "_provider" in row.response.value
                  && row.response.value["_provider"] == words[k].provider)
  {
    FirstTerminalWins(rows, ext, evs, id);
    ToldByWords(rows[id], evs, words);
    forall i | 0 <= i < |evs|
      ensures Terminal(evs[i].notice.status) <==> !InFlightWord(words[i])
    {
      WordIsMapped(words[i]);
    }
    var first := FirstTerminal(evs);
    forall k: nat
      ensures Decides(words, k) <==> k < |words| && k == first
    {
      DecidesIsFirst(evs, words, k);
    }
    assert Settling(evs) == if first < |evs| then first + 1 else |evs|;
    hide HandleAll, TrueRun, NamesOnly, FirstTerminal, Told, Settling, NoticeOf, Terminal;
    WordEndsOneWay(words[if first < |evs| then first else |evs| - 1]);
    hide ConfirmingWord, FailingWord;
    if first < |evs| {
      assert Decides(words, first);
    } else {
      FirstTerminalIsFirst(evs);
      hide Decides;
    }
  }

  /* ---- what the caller is told ---- */

  function Replies(rows: Table, evs: seq<Event>): seq<Reply> {
    if evs == [] then [] else [ReplyTo(rows, evs[0])] + Replies(Handle(rows, evs[0]), evs[1..])
  }

  function AlreadyIs(status: Status): Reply {
    if status == CONFIRMED then AlreadyConfirmed else AlreadyFailed
  }

  lemma {:induction false} LaterReplies(rows: Table, ext: ExternalRefs, evs: seq<Event>, id: Id)
    requires id in rows && Terminal(rows[id].status) && TrueRun(rows, ext, evs)
    requires forall i :: 0 <= i < |evs| ==> NamesOnly(rows, ext, evs[i], id)
    ensures Replies(rows, evs) == seq(|evs|, i => AlreadyIs(rows[id].status))
  {
    if evs != [] {
      HandleNamed(rows, ext, evs[0], id);
      assert Handle(rows, evs[0]) == rows;
      LaterReplies(rows, ext, evs[1..], id);
    }
  }

  /** The answers tell the truth: applied up to and including the first terminal event, and after
      it the name of the status that event set. */
  lemma {:induction false} RepliesAreTrue(rows: Table, ext: ExternalRefs, evs: seq<Event>, id: Id)
    requires id in rows && !Terminal(rows[id].status) && TrueRun(rows, ext, evs)
    requires forall i :: 0 <= i < |evs| ==> NamesOnly(rows, ext, evs[i], id)
    ensures var k := FirstTerminal(evs);
            Replies(rows, evs) == seq(|evs|, i requires 0 <= i < |evs| =>
              if i <= k then Updated else AlreadyIs(evs[k].notice.status))
  {
    if evs != [] {
      var mid := Merged(rows, evs[0], id);
      StepNamed(rows, ext, evs, id);
      HandleNamed(rows, ext, evs[0], id);
      assert Replies(rows, evs) == [Updated] + Replies(mid, evs[1..]);
      hide Handle, NamesOnly, TrueLookups, TrueRun, Replies, ReplyTo;
      if Terminal(evs[0].notice.status) {
        LaterReplies(mid, ext, evs[1..], id);
      } else {
        RepliesAreTrue(mid, ext, evs[1..], id);
        assert FirstTerminal(evs) == 1 + FirstTerminal(evs[1..]);
      }
    }
  }

  // The live rows that carry the event's provider reference.
  function LiveHits(rows: Table, ev: Event): set<Id> {
    if ev.pref.Some? then Hit(rows, ev.pref.value, false) else {}
  }

  // The row that the second lookup found is live when the second update runs.
  predicate FallbackLive(rows: Table, ev: Event) {
    && ev.fallback.Some? && ev.fallback.value in rows && !Terminal(rows[ev.fallback.value].status)
    && (ev.fallback.value in LiveHits(rows, ev) ==> !Terminal(ev.notice.status))
  }

  lemma FallbackWrites(rows: Table, ext: ExternalRefs, ev: Event)
    requires TrueLookups(rows, ext, ev, false)
    ensures (ev.eref.Some? && ev.fallback.Some?
             && WritesById(AfterProviderRef(rows, ev, false), ev.fallback.value, false))
            <==> FallbackLive(rows, ev)
  {
  }

  lemma ReportedIsFound(rows: Table, ext: ExternalRefs, ev: Event)
    requires TrueLookups(rows, ext, ev, false) && (LiveHits(rows, ev) != {} || FallbackLive(rows, ev))
    ensures Existing(ev).Some? && Existing(ev).value in rows
  {
    if LiveHits(rows, ev) != {} {
      var id :| id in LiveHits(rows, ev);
      assert HasProviderRef(rows[id], ev.pref);
    } else {
      assert HasExternalRef(rows[ev.fallback.value], ext, ev.eref);
    }
  }

  /** An event is reported as applied exactly when one live row has its provider reference, or the
      row found by its external reference is still live after the update of those rows. */
  lemma ReportIsOneHit(rows: Table, ext: ExternalRefs, ev: Event)
    requires TrueLookups(rows, ext, ev, false)
    ensures ReplyTo(rows, ev) == Updated <==> |LiveHits(rows, ev)| == 1 || FallbackLive(rows, ev)
  {
    FallbackWrites(rows, ext, ev);
    if LiveHits(rows, ev) != {} || FallbackLive(rows, ev) { ReportedIsFound(rows, ext, ev); }
    hide TrueLookups, FallbackLive, LiveHits, Hit, WritesById, AfterProviderRef;
    assert OneHit(rows, ev, false) <==> |LiveHits(rows, ev)| == 1 by { OneHitIsLive(rows, ev); }
  }

  lemma OneHitIsLive(rows: Table, ev: Event)
    ensures OneHit(rows, ev, false) <==> |LiveHits(rows, ev)| == 1
  {
  }

  /** Rows change without being reported exactly when two or more live rows have the provider
      reference and the external reference finds none that is live after them; then exactly those
      rows are merged. */
  lemma UnreportedChange(rows: Table, ext: ExternalRefs, ev: Event)
    requires TrueLookups(rows, ext, ev, false)
    ensures (LiveHits(rows, ev) != {} && ReplyTo(rows, ev) != Updated)
            <==> (|LiveHits(rows, ev)| >= 2 && !FallbackLive(rows, ev))
    ensures ReplyTo(rows, ev) != Updated ==>
              Handle(rows, ev) == map id | id in rows ::
                if id in LiveHits(rows, ev) then MergeRow(rows[id], ev.notice, false, ev.now) else rows[id]
  {
    ReportIsOneHit(rows, ext, ev);
    var hits := LiveHits(rows, ev);
    assert |hits| == 0 <==> hits == {};
    if ReplyTo(rows, ev) != Updated { UnreportedRows(rows, ext, ev); }
    hide *;
  }

  lemma UnreportedRows(rows: Table, ext: ExternalRefs, ev: Event)
    requires TrueLookups(rows, ext, ev, false) && !FallbackLive(rows, ev)
    ensures Handle(rows, ev) == map id | id in rows ::
              if id in LiveHits(rows, ev) then MergeRow(rows[id], ev.notice, false, ev.now) else rows[id]
  {
    FallbackWrites(rows, ext, ev);
    if LiveHits(rows, ev) != {} { ReportedIsFound(rows, ext, ev); }
    hide TrueLookups, FallbackLive, OneHit;
    assert forall id :: id in rows && id !in LiveHits(rows, ev) ==> AfterProviderRef(rows, ev, false)[id] == rows[id];
    assert AfterAnyRef(rows, ev, false) == AfterProviderRef(rows, ev, false);
  }

  /** Two payouts sharing a reference: the event confirms both and answers NOT_UPDATED. */
  lemma SharedRefIsMisreported(a: Payout, b: Payout, n: Notice, now: int)
    requires a.status == SENT && b.status == SENT && a.ref == Some("r") && b.ref == Some("r")
    requires a.updatedAt <= b.updatedAt && n.status == CONFIRMED
    ensures var ev := Event(Some("r"), None, n, now, Some(2), None, None);
            var rows := map[1 := a, 2 := b];
            && TrueLookups(rows, map[], ev, false) && ReplyTo(rows, ev) == NotUpdated
            && Handle(rows, ev)[1].status == CONFIRMED && Handle(rows, ev)[2].status == CONFIRMED
  {
    var rows := map[1 := a, 2 := b];
    assert Hit(rows, "r", false) == {1, 2};
  }
}
