/**
 Calendar events in their two representations, the Google-typed one and the
 provider-neutral one, the predicates the engine reads from them, and the two
 mappings of the bridge.
 */
module Events {
  import opened Basics

  /** One end of an event: a timed instant, an all-day date, and a zone. The
      strings are opaque. */
  datatype Span = Span(dateTime: string, date: string, timeZone: string)

  const EMPTY_SPAN := Span("", "", "")

  datatype Attendee = Attendee(self: bool, response: string, identity: string)

  /** Keys of an event's private extended properties. */
  datatype TagKey = OwnerKey | SourceAccountKey | SourceCalendarKey | SourceEventKey | OtherKey(name: string)

  const OWNER_VALUE := "calendar-bridge"
  const CANCELLED := "cancelled"
  const TRANSPARENT := "transparent"
  const DECLINED := "declined"

  /** A Google event. `etag` 0 stands for the empty string. `tags` is None when
      the extended properties, or their private half, are nil. */
  datatype GEvent = GEvent(
    id: string,
    etag: nat,
    status: string,
    summary: string,
    description: string,
    location: string,
    start: Option<Span>,
    end: Option<Span>,
    transparency: string,
    visibility: string,
    attendees: seq<Option<Attendee>>,
    tags: Option<map<TagKey, string>>)

  datatype Ownership = Ownership(owner: string, sourceAccount: string, sourceCalendar: string, sourceEvent: string)

  const NO_OWNERSHIP := Ownership("", "", "", "")

  /** The provider-neutral event. */
  datatype NEvent = NEvent(
    id: string,
    title: string,
    start: Span,
    end: Span,
    cancelled: bool,
    transparent: bool,
    selfResponse: string,
    own: Ownership)

  /** The source a block mirrors: the originating account and its event. */
  datatype Key = Key(acc: string, ev: string)

  /******* What the engine reads *******/

  /** A Go map read: the zero value when the key is missing. */
  function Lookup(m: map<TagKey, string>, k: TagKey): string {
    if k in m then m[k] else ""
  }

  predicate IsOwned(ev: GEvent) {
    ev.tags.Some? && Lookup(ev.tags.value, OwnerKey) == OWNER_VALUE
  }

  datatype SourceId = SourceId(account: string, calendar: string, event: string)

  /** None is the source's `ok == false`. */
  function SourceIdentity(ev: GEvent): Option<SourceId> {
    if ev.tags.None? then None
    else
      var m := ev.tags.value;
      var id := SourceId(Lookup(m, SourceAccountKey), Lookup(m, SourceCalendarKey), Lookup(m, SourceEventKey));
      if id.account != "" && id.calendar != "" && id.event != "" then Some(id) else None
  }

  predicate IsCancelled(ev: GEvent) {
    ev.status == CANCELLED
  }

  function SelfResponseIn(attendees: seq<Option<Attendee>>): string {
    if attendees == [] then ""
    else if attendees[0].Some? && attendees[0].value.self then attendees[0].value.response
    else SelfResponseIn(attendees[1..])
  }

  predicate BlocksTime(ev: GEvent) {
    ev.transparency != TRANSPARENT && SelfResponseIn(ev.attendees) != DECLINED
  }

  /** Entry `i` is the first one for the calendar's owner. */
  ghost predicate FirstSelf(attendees: seq<Option<Attendee>>, i: int) {
    && 0 <= i < |attendees| && attendees[i].Some? && attendees[i].value.self
    && forall j :: 0 <= j < i && attendees[j].Some? ==> !attendees[j].value.self
  }

  /** The owner's response is that of the first entry for the owner, and empty
      exactly when there is no such entry or it has none. */
  lemma {:induction false} OwnResponse(attendees: seq<Option<Attendee>>)
    ensures forall i :: FirstSelf(attendees, i) ==> SelfResponseIn(attendees) == attendees[i].value.response
    ensures (forall i :: 0 <= i < |attendees| && attendees[i].Some? ==> !attendees[i].value.self) ==>
      SelfResponseIn(attendees) == ""
    ensures SelfResponseIn(attendees) != "" ==>
      exists i :: FirstSelf(attendees, i) && attendees[i].value.response == SelfResponseIn(attendees)
  {
    if attendees != [] && !(attendees[0].Some? && attendees[0].value.self) {
      var rest := attendees[1..];
      OwnResponse(rest);
      forall i | FirstSelf(attendees, i)
        ensures SelfResponseIn(attendees) == attendees[i].value.response
      {
        assert FirstSelf(rest, i - 1);
      }
      if SelfResponseIn(attendees) != "" {
        var i :| FirstSelf(rest, i) && rest[i].value.response == SelfResponseIn(rest);
        assert FirstSelf(attendees, i + 1);
      }
    } else if attendees != [] {
      assert FirstSelf(attendees, 0);
    }
  }

  /** What takes up time, by the fields: not marked free, and not declined by
      the first entry for the owner. */
  lemma TakesUpTime(ev: GEvent)
    ensures BlocksTime(ev) <==>
            ev.transparency != "transparent"
            && forall i :: FirstSelf(ev.attendees, i) ==> ev.attendees[i].value.response != "declined"
  {
    OwnResponse(ev.attendees);
  }

  /** The tag is there, with this value. */
  predicate Tagged(ev: GEvent, k: TagKey, v: string) {
    ev.tags.Some? && k in ev.tags.value && ev.tags.value[k] == v
  }

  /** What a live block is, by the fields: not cancelled, tagged as the
      program's own, and with a source account, calendar and event. */
  lemma BlockByItsFields(ev: GEvent, k: Key)
    ensures KeyOf(ev) == Some(k) <==>
            && ev.status != "cancelled" && Tagged(ev, OwnerKey, "calendar-bridge")
            && k.acc != "" && Tagged(ev, SourceAccountKey, k.acc)
            && k.ev != "" && Tagged(ev, SourceEventKey, k.ev)
            && exists c :: c != "" && Tagged(ev, SourceCalendarKey, c)
    ensures IsOwned(ev) <==> Tagged(ev, OwnerKey, "calendar-bridge")
  {
    if ev.tags.Some? && SourceCalendarKey in ev.tags.value {
      assert Tagged(ev, SourceCalendarKey, ev.tags.value[SourceCalendarKey]);
    }
  }

  predicate TimesEqual(a: Option<Span>, b: Option<Span>) {
    if a.None? || b.None? then a == b
    else
      && a.value.dateTime == b.value.dateTime
      && a.value.date == b.value.date
      && a.value.timeZone == b.value.timeZone
  }

  /** The key of a live, owned block with a complete source identity. */
  function KeyOf(ev: GEvent): Option<Key> {
    if IsOwned(ev) && !IsCancelled(ev) && SourceIdentity(ev).Some? then
      Some(Key(SourceIdentity(ev).value.account, SourceIdentity(ev).value.event))
    else
      None
  }

  /** Neither the identifier nor the version takes part in a block's key. */
  lemma KeyIgnoresVersion(ev: GEvent, id: string, etag: nat)
    ensures KeyOf(ev.(id := id, etag := etag)) == KeyOf(ev)
  {
  }

  /******* The bridge *******/

  function SpanFromGoogle(s: Option<Span>): Span {
    if s.None? then EMPTY_SPAN else s.value
  }

  function SpanToGoogle(s: Span): Option<Span> {
    if s == EMPTY_SPAN then None else Some(s)
  }

  /** A span with an empty endpoint treated as nil. */
  function Norm(s: Option<Span>): Option<Span> {
    SpanToGoogle(SpanFromGoogle(s))
  }

  function OwnershipFromGoogle(ev: GEvent): Ownership {
    if ev.tags.None? then NO_OWNERSHIP
    else
      var m := ev.tags.value;
      Ownership(Lookup(m, OwnerKey), Lookup(m, SourceAccountKey), Lookup(m, SourceCalendarKey),
                Lookup(m, SourceEventKey))
  }

  predicate ValidForWrite(o: Ownership) {
    o.owner == OWNER_VALUE && o.sourceAccount != "" && o.sourceCalendar != "" && o.sourceEvent != ""
  }

  function OwnershipTags(o: Ownership): map<TagKey, string> {
    map[OwnerKey := o.owner, SourceAccountKey := o.sourceAccount,
        SourceCalendarKey := o.sourceCalendar, SourceEventKey := o.sourceEvent]
  }

  function EventFromGoogle(ev: GEvent): NEvent {
    NEvent(
      ev.id,
      if IsOwned(ev) then ev.summary else "",
      SpanFromGoogle(ev.start),
      SpanFromGoogle(ev.end),
      IsCancelled(ev),
      ev.transparency == TRANSPARENT,
      SelfResponseIn(ev.attendees),
      OwnershipFromGoogle(ev))
  }

  function EventToGoogle(e: NEvent): GEvent {
    GEvent(
      e.id,
      0,
      if e.cancelled then CANCELLED else "",
      e.title,
      "",
      "",
      SpanToGoogle(e.start),
      SpanToGoogle(e.end),
      if e.transparent then TRANSPARENT else "",
      "",
      if e.selfResponse != "" then [Some(Attendee(true, e.selfResponse, ""))] else [],
      if e.own != NO_OWNERSHIP then Some(OwnershipTags(e.own)) else None)
  }

  /** What the engine sees of a stored event: out through the provider and back
      through the bridge. */
  function View(ev: GEvent): GEvent {
    EventToGoogle(EventFromGoogle(ev))
  }

  /** The bridge is a retraction exactly on the neutral events that carry a
      title only when owned. */
  lemma BridgeRetraction(e: NEvent)
    ensures EventFromGoogle(EventToGoogle(e)) == e <==> (e.title == "" || e.own.owner == OWNER_VALUE)
  {
    var g := EventToGoogle(e);
    assert SelfResponseIn(g.attendees) == e.selfResponse;
    assert OwnershipFromGoogle(g) == e.own;
    assert IsOwned(g) <==> e.own.owner == OWNER_VALUE;
  }

  /** The equality of neutral spans. */
  predicate SpanEqual(a: Span, b: Span) {
    a.dateTime == b.dateTime && a.date == b.date && a.timeZone == b.timeZone
  }

  /** Comparing times after the bridge is comparing neutral spans before it. */
  lemma TimesCompareAsSpans(a: Span, b: Span)
    ensures TimesEqual(SpanToGoogle(a), SpanToGoogle(b)) <==> SpanEqual(a, b)
    ensures SpanFromGoogle(SpanToGoogle(a)) == a
  {
  }

  /** Every observable of an event that the engine reads survives the trip out
      and back, the trip is idempotent, and content never makes it. */
  lemma ViewPreserves(ev: GEvent)
    ensures View(ev).id == ev.id
    ensures IsOwned(View(ev)) == IsOwned(ev)
    ensures SourceIdentity(View(ev)) == SourceIdentity(ev)
    ensures OwnershipFromGoogle(View(ev)) == OwnershipFromGoogle(ev)
    ensures KeyOf(View(ev)) == KeyOf(ev)
    ensures IsCancelled(View(ev)) == IsCancelled(ev)
    ensures BlocksTime(View(ev)) == BlocksTime(ev)
    ensures View(ev).start == Norm(ev.start) && View(ev).end == Norm(ev.end)
    ensures View(ev).summary == if IsOwned(ev) then ev.summary else ""
    ensures View(ev).description == "" && View(ev).location == "" && View(ev).etag == 0
    ensures View(View(ev)) == View(ev)
  {
    var n := EventFromGoogle(ev);
    BridgeRetraction(n);
    var g := View(ev);
    assert EventFromGoogle(g) == n;
    assert OwnershipFromGoogle(g) == OwnershipFromGoogle(ev);
    assert SelfResponseIn(g.attendees) == SelfResponseIn(ev.attendees);
    assert SourceIdentity(g) == SourceIdentity(ev);
  }

  /** The write gate and the collector agree: a block may be written exactly
      when it is owned and its identity is complete enough to be collected. */
  lemma WriteGateIsCollectable(ev: GEvent)
    ensures ValidForWrite(OwnershipFromGoogle(ev)) <==> IsOwned(ev) && SourceIdentity(ev).Some?
    ensures ValidForWrite(OwnershipFromGoogle(ev)) && !IsCancelled(ev) <==>
            KeyOf(ev) == Some(Key(OwnershipFromGoogle(ev).sourceAccount, OwnershipFromGoogle(ev).sourceEvent))
  {
  }

  /** Neither list has an entry for the owner, or the first ones for the owner
      carry the same response. Other people's entries are arbitrary. */
  ghost predicate SameOwnResponse(a: seq<Option<Attendee>>, b: seq<Option<Attendee>>) {
    && (forall i :: FirstSelf(a, i) ==>
          exists j :: FirstSelf(b, j) && a[i].value.response == b[j].value.response)
    && (forall j :: FirstSelf(b, j) ==>
          exists i :: FirstSelf(a, i) && a[i].value.response == b[j].value.response)
  }

  lemma OwnResponsesAgree(a: seq<Option<Attendee>>, b: seq<Option<Attendee>>)
    requires SameOwnResponse(a, b)
    ensures SelfResponseIn(a) == SelfResponseIn(b)
  {
    OwnResponse(a);
    OwnResponse(b);
  }

  /** Two unowned events that differ only in what people wrote: title, text,
      place and other people's attendance. */
  ghost predicate SameButContent(a: GEvent, b: GEvent) {
    && a.id == b.id
    && a.status == b.status
    && a.start == b.start
    && a.end == b.end
    && a.transparency == b.transparency
    && a.tags == b.tags
    && SameOwnResponse(a.attendees, b.attendees)
    && !IsOwned(a)
  }

  /** Content of unowned events is invisible past the provider. */
  lemma ContentIsInvisible(a: GEvent, b: GEvent)
    requires SameButContent(a, b)
    ensures View(a) == View(b)
  {
    OwnResponsesAgree(a.attendees, b.attendees);
  }
}
