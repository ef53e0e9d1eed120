/** The idempotency key of a notification: two keys are equal exactly when the notifications are the same. */
module DedupKey {

  predicate IsUuidChar(c: char) {
    '0' <= c <= '9' || 'a' <= c <= 'f' || 'A' <= c <= 'F' || c == '-'
  }

  /** The characters of a UUID: hexadecimal digits in either case, and the dash. */
  lemma UuidChars(c: char)
    ensures IsUuidChar(c) <==> c in "0123456789abcdefABCDEF-"
  {
    var chars := "0123456789abcdefABCDEF-";
    assert forall i :: 0 <= i < |chars| ==> IsUuidChar(chars[i]);
    if IsUuidChar(c) {
      var i := if c == '-' then 22 else if c <= '9' then c as int - '0' as int
               else if c <= 'F' then 16 + (c as int - 'A' as int) else 10 + (c as int - 'a' as int);
      assert chars[i] == c;
    }
  }

  predicate IsUuid(s: string) {
    |s| == 36 && forall i :: 0 <= i < |s| ==> IsUuidChar(s[i])
  }

  datatype Kind = Welcome | Proposed | Booked | RequestReceived | Reminder | Joined

  function TypeName(k: Kind): (t: string)
    ensures ':' !in t
  {
    match k
    case Welcome => "system.welcome"
    case Proposed => "interview.match_proposed"
    case Booked => "interview.slot_booked"
    case RequestReceived => "interview.match_request_received"
    case Reminder => "interview.reminder_15m"
    case Joined => "interview.partner_joined"
  }

  /** The events of the dictionary. The last field of each is a display name, where it has one. */
  datatype Event =
    | SystemWelcome
    | MatchProposed(requestId: string, proposedSlotId: string, proposedStartUtc: string, senderName: string)
    | SlotBooked(sessionId: string, slotId: string, startUtc: string, otherParticipantName: string)
    | MatchRequestReceived(requestId: string, senderName: string)
    | Reminder15m(sessionId: string, startUtc: string, otherParticipantName: string)
    | PartnerJoined(sessionId: string, partnerName: string)
  {
    /** What the schema says of the identifiers. */
    predicate IdsValid() {
      match this
      case SystemWelcome => true
      case MatchProposed(r, s, _, _) => IsUuid(r) && IsUuid(s)
      case SlotBooked(s, l, _, _) => IsUuid(s) && IsUuid(l)
      case MatchRequestReceived(r, _) => IsUuid(r)
      case Reminder15m(s, _, _) => IsUuid(s)
      case PartnerJoined(s, _) => IsUuid(s)
    }

    function Kind(): Kind {
      match this
      case SystemWelcome => Welcome
      case MatchProposed(_, _, _, _) => Proposed
      case SlotBooked(_, _, _, _) => Booked
      case MatchRequestReceived(_, _) => RequestReceived
      case Reminder15m(_, _, _) => Reminder
      case PartnerJoined(_, _) => Joined
    }

    function Identity(): string {
      match this
      case SystemWelcome => ""
      case MatchProposed(r, s, t, _) => "request=" + r + "&slot=" + s + "&start=" + t
      case SlotBooked(s, l, t, _) => "session=" + s + "&slot=" + l + "&start=" + t
      case MatchRequestReceived(r, _) => "request=" + r
      case Reminder15m(s, t, _) => "session=" + s + "&start=" + t
      case PartnerJoined(s, _) => "session=" + s
    }

    /** The event with every display name left blank. */
    function Nameless(): Event {
      match this
      case SystemWelcome => SystemWelcome
      case MatchProposed(r, s, t, _) => MatchProposed(r, s, t, "")
      case SlotBooked(s, l, t, _) => SlotBooked(s, l, t, "")
      case MatchRequestReceived(r, _) => MatchRequestReceived(r, "")
      case Reminder15m(s, t, _) => Reminder15m(s, t, "")
      case PartnerJoined(s, _) => PartnerJoined(s, "")
    }
  }

  function BuildDedupKey(e: Event, recipientId: string): string {
    TypeName(e.Kind()) + ":" + recipientId + ":" + e.Identity()
  }

  function FirstColon(s: string): nat {
    if s == "" || s[0] == ':' then 0 else 1 + FirstColon(s[1..])
  }

  lemma {:induction false} FirstColonIs(a: string, x: string)
    requires ':' !in a
    ensures FirstColon(a + ":" + x) == |a|
    decreases |a|
  {
    var s := a + ":" + x;
    if a != "" {
      assert s[1..] == a[1..] + ":" + x;
      FirstColonIs(a[1..], x);
    }
  }

  /** The text before the first colon is determined by the whole, and so is the text after it. */
  lemma ColonSplits(a: string, x: string, b: string, y: string)
    requires ':' !in a && ':' !in b && a + ":" + x == b + ":" + y
    ensures a == b && x == y
  {
    var s := a + ":" + x;
    FirstColonIs(a, x);
    FirstColonIs(b, y);
    assert a == s[..|a|] && b == s[..|b|];
    assert x == s[|a| + 1..] && y == s[|b| + 1..];
  }

  /** Parts of fixed length can be read back. */
  lemma FixedSplits(pre: string, a: string, x: string, b: string, y: string)
    requires |a| == |b| && pre + a + x == pre + b + y
    ensures a == b && x == y
  {
    var s := pre + a + x;
    assert a == s[|pre|..|pre| + |a|] && b == s[|pre|..|pre| + |b|];
    assert x == s[|pre| + |a|..] && y == s[|pre| + |b|..];
  }

  lemma TypeNameInjective(j: Kind, k: Kind)
    ensures TypeName(j) == TypeName(k) <==> j == k
  {
    assert |TypeName(Welcome)| == 14 && |TypeName(Proposed)| == 24 && |TypeName(Booked)| == 21;
    assert |TypeName(RequestReceived)| == 32 && |TypeName(Reminder)| == 22 && |TypeName(Joined)| == 24;
    assert TypeName(Proposed)[10] == 'm' && TypeName(Joined)[10] == 'p';
  }

  /** Two identifiers and a start time. */
  lemma TwoIdsSplit(pre: string, a: string, b: string, t: string, c: string, d: string, u: string)
    requires |a| == |c| && |b| == |d| && pre + a + "&slot=" + b + "&start=" + t == pre + c + "&slot=" + d + "&start=" + u
    ensures a == c && b == d && t == u
  {
    var (x, y) := ("&slot=" + b + "&start=" + t, "&slot=" + d + "&start=" + u);
    assert pre + a + "&slot=" + b + "&start=" + t == pre + a + x;
    assert pre + c + "&slot=" + d + "&start=" + u == pre + c + y;
    FixedSplits(pre, a, x, c, y);
    assert x == "&slot=" + b + ("&start=" + t) && y == "&slot=" + d + ("&start=" + u);
    FixedSplits("&slot=", b, "&start=" + t, d, "&start=" + u);
    TailSplits("&start=", t, u);
  }

  lemma TailSplits(pre: string, t: string, u: string)
    requires pre + t == pre + u
    ensures t == u
  {
    assert t == (pre + t)[|pre|..] && u == (pre + u)[|pre|..];
  }

  /** Within one type the identity determines all its fields. */
  lemma IdentitySplits(e: Event, f: Event)
    requires e.IdsValid() && f.IdsValid() && e.Kind() == f.Kind()
    ensures e.Identity() == f.Identity() <==> e.Nameless() == f.Nameless()
  {
    if e.Identity() == f.Identity() {
      match e
      case SystemWelcome =>
      case MatchProposed(r, s, t, _) =>
        TwoIdsSplit("request=", r, s, t, f.requestId, f.proposedSlotId, f.proposedStartUtc);
      case SlotBooked(s, l, t, _) =>
        TwoIdsSplit("session=", s, l, t, f.sessionId, f.slotId, f.startUtc);
      case MatchRequestReceived(r, _) => TailSplits("request=", r, f.requestId);
      case Reminder15m(s, t, _) =>
        OneIdSplit(s, t, f.sessionId, f.startUtc);
      case PartnerJoined(s, _) => TailSplits("session=", s, f.sessionId);
    }
  }

  lemma OneIdSplit(a: string, t: string, c: string, u: string)
    requires |a| == |c| && "session=" + a + "&start=" + t == "session=" + c + "&start=" + u
    ensures a == c && t == u
  {
    assert "session=" + a + "&start=" + t == "session=" + a + ("&start=" + t);
    assert "session=" + c + "&start=" + u == "session=" + c + ("&start=" + u);
    FixedSplits("session=", a, "&start=" + t, c, "&start=" + u);
    TailSplits("&start=", t, u);
  }

  /**
   For events that pass their schema and recipients named by a UUID: two keys are equal if and only if the recipient,
   the type and every identity field are. In particular display names never matter.
   */
  lemma KeysEqualIff(e: Event, recipient: string, f: Event, other: string)
    requires e.IdsValid() && f.IdsValid() && IsUuid(recipient) && IsUuid(other)
    ensures BuildDedupKey(e, recipient) == BuildDedupKey(f, other)
            <==> recipient == other && e.Nameless() == f.Nameless()
  {
    if BuildDedupKey(e, recipient) == BuildDedupKey(f, other) {
      KeyDetermines(e, recipient, f, other);
    }
    if e.Nameless() == f.Nameless() {
      SameNameless(e, f);
    }
    hide TypeName, Event.Identity, Event.Nameless, Event.Kind, Event.IdsValid, IsUuid;
  }

  lemma KeyParts(e: Event, recipient: string)
    requires IsUuid(recipient)
    ensures BuildDedupKey(e, recipient) == TypeName(e.Kind()) + ":" + (recipient + ":" + e.Identity()) && ':' !in recipient
  {
    hide TypeName, Event.Identity, Event.Kind;
    var (k, i) := (TypeName(e.Kind()), e.Identity());
    assert k + ":" + recipient + ":" + i == k + ":" + (recipient + ":" + i);
  }

  lemma KeyDetermines(e: Event, recipient: string, f: Event, other: string)
    requires e.IdsValid() && f.IdsValid() && IsUuid(recipient) && IsUuid(other)
    requires BuildDedupKey(e, recipient) == BuildDedupKey(f, other)
    ensures recipient == other && e.Nameless() == f.Nameless()
  {
    hide TypeName, Event.Identity, Event.Nameless, Event.Kind, Event.IdsValid, IsUuid, BuildDedupKey;
    KeyParts(e, recipient);
    KeyParts(f, other);
    ColonSplits(TypeName(e.Kind()), recipient + ":" + e.Identity(), TypeName(f.Kind()), other + ":" + f.Identity());
    ColonSplits(recipient, e.Identity(), other, f.Identity());
    TypeNameInjective(e.Kind(), f.Kind());
    IdentitySplits(e, f);
  }

  lemma SameNameless(e: Event, f: Event)
    requires e.Nameless() == f.Nameless()
    ensures e.Kind() == f.Kind() && e.Identity() == f.Identity()
  {
  }

  /** Every kind of event occurs, with any identifiers the schema allows. */
  lemma EveryKindOccurs(k: Kind, id: string)
    requires IsUuid(id)
    ensures exists e: Event :: e.IdsValid() && e.Kind() == k
  {
    var e := match k
      case Welcome => SystemWelcome
      case Proposed => MatchProposed(id, id, "", "")
      case Booked => SlotBooked(id, id, "", "")
      case RequestReceived => MatchRequestReceived(id, "")
      case Reminder => Reminder15m(id, "", "")
      case Joined => PartnerJoined(id, "");
    assert e.IdsValid() && e.Kind() == k;
  }
}
