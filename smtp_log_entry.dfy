/** SmtpLogEntry: one delivery record read from the mail log. Its setters
    update one field each; equals, hashCode, compareTo and the reverse
    comparator decide how result sets of entries are ordered: newest first,
    or oldest first with the reverse comparator. Every field may be null;
    where the source dereferences a null field the model answers
    NullPointerException. */
module SmtpLogEntries {
  import opened Wrappers
  import opened JavaText

  /** The fields of an entry at one moment. The date is in milliseconds
      since the epoch; the state is 0 (soft bounce), 1 (hard bounce) or
      2 (unknown bounce). */
  datatype Fields = Fields(
    date: Option<int>,
    queueId: Option<string>,
    msgId: Option<string>,
    rcptEmail: Option<string>,
    senderEmail: Option<string>,
    status: Option<string>,
    info: Option<string>,
    state: Option<int>,
    stateInfo: Option<string>)

  /** The entry with every field null, as the no-argument constructor
      leaves it. */
  const Blank: Fields := Fields(None, None, None, None, None, None, None, None, None)

  /** Two records describe the same delivery: every field but the sender
      agrees. */
  predicate Same(a: Fields, b: Fields) {
    a.(senderEmail := None) == b.(senderEmail := None)
  }

  /** The fields equals dereferences on its receiver without a null check. */
  predicate EqualsReady(a: Fields) {
    a.date.Some? && a.queueId.Some? && a.msgId.Some? && a.status.Some? && a.state.Some?
  }

  /** The fields hashCode dereferences without a null check. */
  predicate HashReady(a: Fields) {
    EqualsReady(a) && a.rcptEmail.Some?
  }

  /** The field-by-field part of equals, in the source's order: date, info,
      stateInfo, queueId, msgId, rcptEmail, status, state. info, stateInfo
      and rcptEmail are compared null-safely; a null date, queue id,
      message id, status or state on the receiver throws once reached. */
  function EqualFields(a: Fields, b: Fields): (r: Result<bool>)
    ensures EqualsReady(a) ==> r == Value(Same(a, b))
    ensures r == Value(true) ==> Same(a, b)
    ensures r.NullPointerException? ==> !EqualsReady(a)
  {
    if a.date.None? then NullPointerException
    else if b.date != a.date then Value(false)
    else if a.info != b.info then Value(false)
    else if a.stateInfo != b.stateInfo then Value(false)
    else if a.queueId.None? then NullPointerException
    else if b.queueId != a.queueId then Value(false)
    else if a.msgId.None? then NullPointerException
    else if b.msgId != a.msgId then Value(false)
    else if a.rcptEmail != b.rcptEmail then Value(false)
    else if a.status.None? then NullPointerException
    else if b.status != a.status then Value(false)
    else if a.state.None? then NullPointerException
    else if b.state != a.state then Value(false)
    else Value(true)
  }

  /** hashCode over the fields: the date's hash, then queue id, message id,
      recipient, status and state, then info and stateInfo with 0 for null,
      each step 31 * result + hash in 32-bit arithmetic. */
  function HashFields(a: Fields): (r: Result<int>)
    ensures r.Value? <==> HashReady(a)
    ensures r.Value? ==> IsInt32(r.value)
  {
    if !HashReady(a) then NullPointerException
    else
      var h0 := DateHash(a.date.value);
      var h1 := HashStep(h0, StringHash(a.queueId.value));
      var h2 := HashStep(h1, StringHash(a.msgId.value));
      var h3 := HashStep(h2, StringHash(a.rcptEmail.value));
      var h4 := HashStep(h3, StringHash(a.status.value));
      var h5 := HashStep(h4, Wrap32(a.state.value));
      var h6 := HashStep(h5, if a.info.Some? then StringHash(a.info.value) else 0);
      Value(HashStep(h6, if a.stateInfo.Some? then StringHash(a.stateInfo.value) else 0))
  }

  class SmtpLogEntry {
    var date: Option<int>
    var queueId: Option<string>
    var msgId: Option<string>
    var rcptEmail: Option<string>
    var senderEmail: Option<string>
    var status: Option<string>
    var info: Option<string>
    var state: Option<int>
    var stateInfo: Option<string>

    /** The current fields, as one value. */
    function Snapshot(): Fields
      reads this
    {
      Fields(date, queueId, msgId, rcptEmail, senderEmail, status, info, state, stateInfo)
    }

    /** The no-argument constructor: every field null. */
    constructor ()
      ensures Snapshot() == Blank
    {
      date, queueId, msgId, rcptEmail, senderEmail := None, None, None, None, None;
      status, info, state, stateInfo := None, None, None, None;
    }

    method SetDate(date: Option<int>)
      modifies this
      ensures Snapshot() == old(Snapshot()).(date := date)
    {
      this.date := date;
    }

    method SetQueueId(queueId: Option<string>)
      modifies this
      ensures Snapshot() == old(Snapshot()).(queueId := queueId)
    {
      this.queueId := queueId;
    }

    method SetMsgId(msgId: Option<string>)
      modifies this
      ensures Snapshot() == old(Snapshot()).(msgId := msgId)
    {
      this.msgId := msgId;
    }

    method SetRcptEmail(rcptEmail: Option<string>)
      modifies this
      ensures Snapshot() == old(Snapshot()).(rcptEmail := rcptEmail)
    {
      this.rcptEmail := rcptEmail;
    }

    method SetSenderEmail(senderEmail: Option<string>)
      modifies this
      ensures Snapshot() == old(Snapshot()).(senderEmail := senderEmail)
    {
      this.senderEmail := senderEmail;
    }

    method SetStatus(status: Option<string>)
      modifies this
      ensures Snapshot() == old(Snapshot()).(status := status)
    {
      this.status := status;
    }

    method SetInfo(info: Option<string>)
      modifies this
      ensures Snapshot() == old(Snapshot()).(info := info)
    {
      this.info := info;
    }

    method SetState(state: Option<int>)
      modifies this
      ensures Snapshot() == old(Snapshot()).(state := state)
    {
      this.state := state;
    }

    method SetStateInfo(stateInfo: Option<string>)
      modifies this
      ensures Snapshot() == old(Snapshot()).(stateInfo := stateInfo)
    {
      this.stateInfo := stateInfo;
    }

    /** equals: true for the same object, false against null, otherwise the
        field-by-field comparison. */
    function Equals(o: SmtpLogEntry?): (r: Result<bool>)
      reads this, o
      ensures o == this ==> r == Value(true)
      ensures o == null ==> r == Value(false)
      ensures o != null && o != this && EqualsReady(Snapshot()) ==> r == Value(Same(Snapshot(), o.Snapshot()))
      ensures r == Value(true) ==> o != null && Same(Snapshot(), o.Snapshot())
    {
      if this == o then Value(true)
      else if o == null then Value(false)
      else EqualFields(Snapshot(), o.Snapshot())
    }

    function HashCode(): (r: Result<int>)
      reads this
      ensures r.Value? <==> HashReady(Snapshot())
    {
      HashFields(Snapshot())
    }

    /** compareTo: -1 when this entry is strictly later (newest first), 0
        when the entries are equal, 1 otherwise. A null date on either side,
        or a null argument, throws. */
    function CompareTo(o: SmtpLogEntry?): (r: Result<int>)
      reads this, o
      ensures r.Value? ==> r.value in {-1, 0, 1}
      ensures r == Value(-1) <==> o != null && date.Some? && o.date.Some? && date.value > o.date.value
      ensures r == Value(0) <==> o != null && date.Some? && o.date.Some? && date.value <= o.date.value && Equals(o) == Value(true)
      ensures r == Value(1) <==> o != null && date.Some? && o.date.Some? && date.value <= o.date.value && Equals(o) == Value(false)
    {
      if o == null || date.None? || o.date.None? then NullPointerException
      else if date.value > o.date.value then Value(-1)
      else
        match Equals(o)
        case NullPointerException => NullPointerException
        case Value(same) => if same then Value(0) else Value(1)
    }
  }

  /** ReverseComparator.compare: 1 when the first entry is strictly later
      (oldest first), 0 when they are equal, -1 otherwise. */
  function ReverseCompare(o1: SmtpLogEntry?, o2: SmtpLogEntry?): (r: Result<int>)
    reads o1, o2
    ensures r.Value? ==> r.value in {-1, 0, 1}
    ensures r == Value(1) <==> o1 != null && o2 != null && o1.date.Some? && o2.date.Some? && o1.date.value > o2.date.value
    ensures r == Value(0) <==> o1 != null && o2 != null && o1.date.Some? && o2.date.Some? && o1.date.value <= o2.date.value && o1.Equals(o2) == Value(true)
    ensures r == Value(-1) <==> o1 != null && o2 != null && o1.date.Some? && o2.date.Some? && o1.date.value <= o2.date.value && o1.Equals(o2) == Value(false)
  {
    if o1 == null || o2 == null || o1.date.None? || o2.date.None? then NullPointerException
    else if o1.date.value > o2.date.value then Value(1)
    else
      match o1.Equals(o2)
      case NullPointerException => NullPointerException
      case Value(same) => if same then Value(0) else Value(-1)
  }

  function Negate(r: Result<int>): Result<int> {
    match r
    case NullPointerException => NullPointerException
    case Value(v) => Value(-v)
  }

  // ---------------------------------------------------------------------
  // Lemmas

  /** Same is an equivalence relation that ignores the sender. */
  lemma SameIsEquivalence(a: Fields, b: Fields, c: Fields, sender: Option<string>)
    ensures Same(a, a)
    ensures Same(a, b) ==> Same(b, a)
    ensures Same(a, b) && Same(b, c) ==> Same(a, c)
    ensures Same(a, a.(senderEmail := sender))
  {
  }

  /** equals is symmetric between entries whose compared fields are all
      present. */
  lemma EqualsSymmetric(a: SmtpLogEntry, b: SmtpLogEntry)
    requires EqualsReady(a.Snapshot()) && EqualsReady(b.Snapshot())
    ensures a.Equals(b) == b.Equals(a)
  {
  }

  /** Entries that are equal and can be hashed have equal hash codes. */
  lemma HashConsistent(a: SmtpLogEntry, b: SmtpLogEntry)
    requires a.Equals(b) == Value(true)
    requires a.HashCode().Value?
    ensures b.HashCode() == a.HashCode()
  {
    var x, y := a.Snapshot(), b.Snapshot();
    assert Same(x, y);
    assert x.(senderEmail := None) == y.(senderEmail := None);
    assert x.date == y.date && x.queueId == y.queueId && x.msgId == y.msgId;
    assert x.rcptEmail == y.rcptEmail && x.status == y.status && x.state == y.state;
    assert x.info == y.info && x.stateInfo == y.stateInfo;
  }

  /** An entry compares equal to itself once its date is set. */
  lemma CompareReflexive(a: SmtpLogEntry)
    requires a.date.Some?
    ensures a.CompareTo(a) == Value(0)
  {
  }

  /** Entries that are equal compare as 0. */
  lemma CompareEqualEntries(a: SmtpLogEntry, b: SmtpLogEntry)
    requires a.Equals(b) == Value(true)
    requires a.date.Some? && b.date.Some?
    ensures a.CompareTo(b) == Value(0)
  {
  }

  /** Two different deliveries with the same date each compare as 1 against
      the other: compareTo is not antisymmetric, so a sorted set keeps both
      but orders them by insertion. */
  lemma SameDateNotAntisymmetric(a: SmtpLogEntry, b: SmtpLogEntry)
    requires EqualsReady(a.Snapshot()) && EqualsReady(b.Snapshot())
    requires a.date == b.date && !Same(a.Snapshot(), b.Snapshot())
    ensures a.CompareTo(b) == Value(1) && b.CompareTo(a) == Value(1)
  {
  }

  /** The reverse comparator is compareTo with the sign flipped. */
  lemma ReverseIsNegation(a: SmtpLogEntry, b: SmtpLogEntry?)
    ensures ReverseCompare(a, b) == Negate(a.CompareTo(b))
  {
  }

  /** Between two entries with distinct dates, exactly one is ahead in
      newest-first order, and it is the later one. */
  lemma DistinctDatesOrdered(a: SmtpLogEntry, b: SmtpLogEntry)
    requires EqualsReady(a.Snapshot()) && EqualsReady(b.Snapshot())
    requires a.date != b.date
    ensures a.CompareTo(b) == Value(-1) <==> b.CompareTo(a) == Value(1)
    ensures a.CompareTo(b) == Value(-1) <==> a.date.value > b.date.value
  {
  }
}
