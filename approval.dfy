// The customer approval portal: a store of approval tokens, each created "pending" and moved once
// to approved, declined or callback_requested by the customer, or marked expired when viewed late.
module Approval {
  import opened Wrappers
  import opened Text

  /** `ApprovalStatus` */
  datatype Status = Pending | Approved | Declined | CallbackRequested | Expired

  /** The status's stored string value. */
  function StatusValue(s: Status): string {
    match s
    case Pending => "pending"
    case Approved => "approved"
    case Declined => "declined"
    case CallbackRequested => "callback_requested"
    case Expired => "expired"
  }

  /** The estimate payload stored with a token and handed back unchanged. */
  type EstimateData = map<string, string>

  datatype Customer = Customer(name: string, email: string, phone: string)

  /** One entry of a token's `actions` list. */
  datatype ActionRecord = ActionRecord(action: string, timestamp: int, notes: Option<string>)

  /** A stored token entry; times are instants on one integer clock counted in seconds. */
  datatype TokenData = TokenData(
    token: string,
    estimateId: string,
    customer: Customer,
    estimateData: EstimateData,
    createdAt: int,
    expiresAt: int,
    status: Status,
    actions: seq<ActionRecord>)

  type Store = map<string, TokenData>

  const TokenExpiryDays := 7
  const SecondsPerDay := 86400

  /** `dict.get(key, default)` on a string dictionary. */
  function GetOr(m: map<string, string>, key: string, default: string): string {
    if key in m then m[key] else default
  }

  /** `f"{base_url}/approve/{token}"` */
  function ApprovalUrl(baseUrl: string, token: string): string {
    baseUrl + "/approve/" + token
  }

  // ---------------------------------------------------------------------------
  // generate_approval_link
  // ---------------------------------------------------------------------------

  /** The entry `generate_approval_link` stores for a fresh token. */
  function NewEntry(token: string, estimateId: string, estimateData: EstimateData,
                    customer: map<string, string>, now: int): (e: TokenData)
    ensures e.token == token && e.estimateId == estimateId && e.estimateData == estimateData
    ensures e.status == Pending && e.actions == []
    ensures e.createdAt == now && e.expiresAt == now + TokenExpiryDays * SecondsPerDay
    ensures e.customer.name == (if "name" in customer then customer["name"] else "")
    ensures e.customer.email == (if "email" in customer then customer["email"] else "")
    ensures e.customer.phone == (if "phone" in customer then customer["phone"] else "")
  {
    TokenData(token, estimateId,
      Customer(GetOr(customer, "name", ""), GetOr(customer, "email", ""), GetOr(customer, "phone", "")),
      estimateData, now, now + TokenExpiryDays * SecondsPerDay, Pending, [])
  }

  /** The link data returned to the shop. */
  datatype ApprovalLink = ApprovalLink(
    token: string,
    approvalUrl: string,
    expiresAt: int,
    smsMessage: string,
    emailSubject: string,
    emailBody: string)

  const EmailSubject := "Your Vehicle Estimate is Ready"

  /** The greeting falls back to "Valued Customer", unlike the stored name, which falls back to "". */
  function EmailBody(customer: map<string, string>, url: string): string {
    "Hello " + GetOr(customer, "name", "Valued Customer") + ",\n\n" +
    "Your vehicle estimate is ready for review!\n\n" +
    "Click here to view and approve your estimate:\n" + url + "\n\n" +
    "If you have any questions, please call us or reply to this email.\n\n" +
    "This link expires in " + NatToString(TokenExpiryDays) + " days.\n\n" +
    "Thank you for choosing us!"
  }

  function LinkFor(baseUrl: string, token: string, customer: map<string, string>, now: int): (r: ApprovalLink)
    ensures r.token == token && r.approvalUrl == ApprovalUrl(baseUrl, token)
    ensures r.expiresAt == now + TokenExpiryDays * SecondsPerDay
    ensures r.emailSubject == EmailSubject
  {
    var url := ApprovalUrl(baseUrl, token);
    ApprovalLink(token, url, now + TokenExpiryDays * SecondsPerDay,
      "Your estimate from Estimaro is ready! View and approve: " + url,
      EmailSubject, EmailBody(customer, url))
  }

  // ---------------------------------------------------------------------------
  // get_estimate_by_token
  // ---------------------------------------------------------------------------

  /** `None`, the expired answer, or the stored entry as it stands. */
  datatype Lookup = NotFound | LinkExpired | Found(data: TokenData)

  const LinkExpiredError := "This estimate link has expired"

  /** The link has expired when the clock is strictly past `expires_at`. */
  predicate IsExpired(e: TokenData, now: int) {
    now > e.expiresAt
  }

  function LookupOf(m: Store, token: string, now: int): (r: Lookup)
    ensures r.NotFound? <==> token !in m
    ensures r.LinkExpired? <==> token in m && IsExpired(m[token], now)
    ensures r.Found? ==> token in m && r.data == m[token] && !IsExpired(m[token], now)
  {
    if token !in m then NotFound
    else if IsExpired(m[token], now) then LinkExpired
    else Found(m[token])
  }

  /**
   * Viewing an expired link marks its entry "expired", whatever its status was; every other
   * entry, and every view of an unexpired link, leaves the store as it was.
   */
  function StoreAfterLookup(m: Store, token: string, now: int): (r: Store)
    ensures r.Keys == m.Keys
    ensures forall k :: k in m && k != token ==> r[k] == m[k]
    ensures token in m ==>
      r[token] == (if IsExpired(m[token], now) then m[token].(status := Expired) else m[token])
  {
    if token in m && IsExpired(m[token], now) then m[token := m[token].(status := Expired)] else m
  }

  // ---------------------------------------------------------------------------
  // process_approval
  // ---------------------------------------------------------------------------

  /** The action map, applied to the lower-cased action. */
  function StatusForAction(action: string): (r: Option<Status>)
    ensures r.Some? ==> r.value in {Approved, Declined, CallbackRequested}
  {
    var a := Lower(action);
    if a == "approve" then Some(Approved)
    else if a == "decline" then Some(Declined)
    else if a == "callback" then Some(CallbackRequested)
    else None
  }

  const InvalidLinkError := "Invalid or expired approval link"

  /** The guards of `process_approval`, in order, or the status the action moves the entry to. */
  datatype Decision = Rejected(error: string, current: Option<Status>) | Accepted(newStatus: Status)

  function Decide(m: Store, token: string, action: string, now: int): (d: Decision)
    ensures d.Accepted? <==>
      token in m && !IsExpired(m[token], now) && m[token].status == Pending && StatusForAction(action).Some?
    ensures d.Accepted? ==> d.newStatus == StatusForAction(action).value
    ensures token !in m ==> d == Rejected(InvalidLinkError, None)
    ensures token in m && IsExpired(m[token], now) ==> d == Rejected(LinkExpiredError, None)
    ensures d.Rejected? && d.current.Some? <==>
      token in m && !IsExpired(m[token], now) && m[token].status != Pending
  {
    if token !in m then Rejected(InvalidLinkError, None)
    else
      var e := m[token];
      if IsExpired(e, now) then Rejected(LinkExpiredError, None)
      else if e.status != Pending then
        Rejected("This estimate has already been " + StatusValue(e.status), Some(e.status))
      else match StatusForAction(action)
        case None => Rejected("Invalid action: " + action, None)
        case Some(s) => Accepted(s)
  }

  /**
   * A rejected request leaves the store as it was; an accepted one sets the entry's status and
   * appends exactly one action record, and touches no other entry.
   */
  function StoreAfterProcess(m: Store, token: string, action: string, notes: Option<string>, now: int): (r: Store)
    ensures Decide(m, token, action, now).Rejected? ==> r == m
    ensures r.Keys == m.Keys
    ensures forall k :: k in m && k != token ==> r[k] == m[k]
    ensures Decide(m, token, action, now).Accepted? ==>
      && r[token].status == Decide(m, token, action, now).newStatus
      && r[token].actions == m[token].actions + [ActionRecord(action, now, notes)]
      && r[token].(status := Pending, actions := m[token].actions) == m[token]
  {
    match Decide(m, token, action, now)
    case Rejected(_, _) => m
    case Accepted(s) =>
      m[token := m[token].(status := s, actions := m[token].actions + [ActionRecord(action, now, notes)])]
  }

  /** The answer of `process_approval`. */
  datatype ProcessResult =
    | ProcessFailed(error: string, current: Option<Status>)
    | ProcessDone(action: string, status: Status, message: string, nextStep: string,
                  estimateId: string, customer: Customer, processedAt: int)

  const ApprovedMessage := "Thank you! Your repair has been approved. We will contact you shortly to schedule."
  const DeclinedMessage := "We understand. Thank you for considering us. Feel free to reach out if you have questions."
  const CallbackMessage := "We'll call you back shortly to discuss your estimate."

  /** The customer message and the next step for each status an action can set. */
  function NextStep(s: Status): (string, string) {
    if s == Approved then (ApprovedMessage, "schedule")
    else if s == Declined then (DeclinedMessage, "closed")
    else (CallbackMessage, "callback")
  }

  function ProcessResultOf(m: Store, token: string, action: string, now: int): (r: ProcessResult)
    ensures r.ProcessFailed? <==> Decide(m, token, action, now).Rejected?
    ensures r.ProcessFailed? ==> r.error == Decide(m, token, action, now).error
    ensures r.ProcessDone? ==>
      && r.status == Decide(m, token, action, now).newStatus
      && r.estimateId == m[token].estimateId && r.customer == m[token].customer
      && r.action == action && r.processedAt == now
  {
    match Decide(m, token, action, now)
    case Rejected(err, cur) => ProcessFailed(err, cur)
    case Accepted(s) =>
      var (message, next) := NextStep(s);
      ProcessDone(action, s, message, next, m[token].estimateId, m[token].customer, now)
  }

  // ---------------------------------------------------------------------------
  // get_approval_stats
  // ---------------------------------------------------------------------------

  /** The keys, among `keys`, whose entry has status `s`. */
  function WithStatus(m: Store, keys: set<string>, s: Status): set<string> {
    set k | k in keys && k in m && m[k].status == s
  }

  /** The number of entries with status `s`. */
  function CountStatus(m: Store, s: Status): nat {
    |WithStatus(m, m.Keys, s)|
  }

  /** `approved / processed * 100`, or "N/A" when nothing was approved or declined. */
  datatype Rate = NotApplicable | Percent(value: real)

  function RateOf(approved: nat, declined: nat): (r: Rate)
    ensures r.NotApplicable? <==> approved + declined == 0
    ensures r.Percent? ==> 0.0 <= r.value <= 100.0
    ensures r.Percent? ==> r.value * ((approved + declined) as real) == (approved as real) * 100.0
  {
    var processed := approved + declined;
    if processed > 0 then
      RateBounds(approved, processed);
      Percent((approved as real) / (processed as real) * 100.0)
    else NotApplicable
  }

  /** The rate's arithmetic facts, given `approved <= processed`. */
  lemma RateBounds(approved: nat, processed: nat)
    requires 0 < processed && approved <= processed
    ensures var v := (approved as real) / (processed as real) * 100.0;
      0.0 <= v <= 100.0 && v * (processed as real) == (approved as real) * 100.0
  {
    var q := (approved as real) / (processed as real);
    assert q * (processed as real) == approved as real;
    assert q <= 1.0 by {
      if q > 1.0 {
        assert q * (processed as real) > processed as real;
      }
    }
  }

  datatype Stats = Stats(
    totalSent: nat,
    pending: nat,
    approved: nat,
    declined: nat,
    callbackRequested: nat,
    expired: nat,
    approvalRate: Rate)

  function StatsOf(m: Store): Stats {
    Stats(|m|, CountStatus(m, Pending), CountStatus(m, Approved), CountStatus(m, Declined),
      CountStatus(m, CallbackRequested), CountStatus(m, Expired),
      RateOf(CountStatus(m, Approved), CountStatus(m, Declined)))
  }

  /** Adding one key to `keys` adds it to exactly the class of its own status. */
  lemma WithStatusAdd(m: Store, keys: set<string>, k: string, s: Status)
    requires k in m && k !in keys
    ensures |WithStatus(m, keys + {k}, s)| ==
      |WithStatus(m, keys, s)| + (if m[k].status == s then 1 else 0)
  {
    assert k !in WithStatus(m, keys, s);
    if m[k].status == s {
      assert WithStatus(m, keys + {k}, s) == WithStatus(m, keys, s) + {k};
    } else {
      assert WithStatus(m, keys + {k}, s) == WithStatus(m, keys, s);
    }
  }

  /** One more key counted: its own status class grows by one and the other four keep their size. */
  lemma CountStep(m: Store, keys: set<string>, k: string)
    requires k in m && k !in keys
    ensures forall s: Status ::
      |WithStatus(m, keys + {k}, s)| == |WithStatus(m, keys, s)| + (if m[k].status == s then 1 else 0)
  {
    forall s: Status
      ensures |WithStatus(m, keys + {k}, s)| == |WithStatus(m, keys, s)| + (if m[k].status == s then 1 else 0)
    {
      WithStatusAdd(m, keys, k, s);
    }
  }

  /** The five status classes of `keys` together count every key once. */
  lemma {:induction false} StatusClassesPartition(m: Store, keys: set<string>)
    requires keys <= m.Keys
    ensures |WithStatus(m, keys, Pending)| + |WithStatus(m, keys, Approved)| +
      |WithStatus(m, keys, Declined)| + |WithStatus(m, keys, CallbackRequested)| +
      |WithStatus(m, keys, Expired)| == |keys|
    decreases |keys|
  {
    if keys != {} {
      var k :| k in keys;
      var rest := keys - {k};
      StatusClassesPartition(m, rest);
      assert keys == rest + {k};
      WithStatusAdd(m, rest, k, Pending);
      WithStatusAdd(m, rest, k, Approved);
      WithStatusAdd(m, rest, k, Declined);
      WithStatusAdd(m, rest, k, CallbackRequested);
      WithStatusAdd(m, rest, k, Expired);
    } else {
      assert WithStatus(m, keys, Pending) == {};
      assert WithStatus(m, keys, Approved) == {};
      assert WithStatus(m, keys, Declined) == {};
      assert WithStatus(m, keys, CallbackRequested) == {};
      assert WithStatus(m, keys, Expired) == {};
    }
  }

  /**
   * The per-status counts add up to the number of tokens sent, and the approval rate is the share
   * of approvals among the approved and declined entries, as a percentage.
   */
  lemma StatsCorrect(m: Store)
    ensures var st := StatsOf(m);
      && st.pending + st.approved + st.declined + st.callbackRequested + st.expired == st.totalSent
      && st.totalSent == |m|
      && (st.approvalRate.NotApplicable? <==> st.approved + st.declined == 0)
      && (st.approvalRate.Percent? ==>
          0.0 <= st.approvalRate.value <= 100.0 &&
          st.approvalRate.value * ((st.approved + st.declined) as real) == (st.approved as real) * 100.0)
  {
    StatusClassesPartition(m, m.Keys);
  }

  // ---------------------------------------------------------------------------
  // send_notification
  // ---------------------------------------------------------------------------

  /** The (mock) send result: the channel, the address used and the text sent. */
  datatype Notification =
    | NotifyFailed(error: string)
    | SmsSent(to: string, message: string)
    | EmailSent(to: string, subject: string)

  /** Nothing is sent for an unknown token or channel; the link's expiry is not consulted. */
  function NotificationOf(m: Store, baseUrl: string, token: string, channel: string): (r: Notification)
    ensures r.NotifyFailed? <==> token !in m || (channel != "sms" && channel != "email")
    ensures r.SmsSent? ==> channel == "sms" && r.to == m[token].customer.phone
    ensures r.EmailSent? ==> channel == "email" && r.to == m[token].customer.email
    ensures token !in m ==> r == NotifyFailed("Token not found")
  {
    if token !in m then NotifyFailed("Token not found")
    else
      var customer := m[token].customer;
      if channel == "sms" then
        SmsSent(customer.phone, "Your estimate is ready! View: " + ApprovalUrl(baseUrl, token))
      else if channel == "email" then EmailSent(customer.email, EmailSubject)
      else NotifyFailed("Unknown method: " + channel)
  }

  // ---------------------------------------------------------------------------
  // The store over a sequence of customer requests
  // ---------------------------------------------------------------------------

  /** A customer request against an existing link: a view or an action. */
  datatype Request =
    | View(token: string, now: int)
    | Act(token: string, action: string, notes: Option<string>, now: int)

  function Step(m: Store, q: Request): (r: Store)
    ensures r.Keys == m.Keys
  {
    match q
    case View(t, now) => StoreAfterLookup(m, t, now)
    case Act(t, a, n, now) => StoreAfterProcess(m, t, a, n, now)
  }

  function Run(m: Store, qs: seq<Request>): (r: Store)
    ensures r.Keys == m.Keys
    decreases |qs|
  {
    if qs == [] then m else Run(Step(m, qs[0]), qs[1..])
  }

  /** Once an entry has left "pending", no request brings it back or adds to its actions. */
  lemma {:induction false} SettledStaysSettled(m: Store, qs: seq<Request>, t: string)
    requires t in m && m[t].status != Pending
    ensures Run(m, qs)[t].status != Pending
    ensures Run(m, qs)[t].actions == m[t].actions
    decreases |qs|
  {
    if qs != [] {
      var m' := Step(m, qs[0]);
      assert m'[t].status != Pending && m'[t].actions == m[t].actions by {
        match qs[0]
        case View(_, _) =>
        case Act(u, a, n, now) =>
          if u == t {
            assert Decide(m, t, a, now).Rejected?;
          }
      }
      SettledStaysSettled(m', qs[1..], t);
    }
  }

  /**
   * A pending entry is acted on at most once: over any sequence of requests it gains at most one
   * action record, and none while it stays pending.
   */
  lemma {:induction false} ActedOnAtMostOnce(m: Store, qs: seq<Request>, t: string)
    requires t in m && m[t].status == Pending
    ensures |Run(m, qs)[t].actions| <= |m[t].actions| + 1
    ensures Run(m, qs)[t].status == Pending ==> Run(m, qs)[t].actions == m[t].actions
    decreases |qs|
  {
    if qs != [] {
      var m' := Step(m, qs[0]);
      assert |m'[t].actions| <= |m[t].actions| + 1;
      if m'[t].status == Pending {
        assert m'[t].actions == m[t].actions;
        ActedOnAtMostOnce(m', qs[1..], t);
      } else {
        SettledStaysSettled(m', qs[1..], t);
      }
    }
  }

  /** A second action on the same link always fails, whatever the action. */
  lemma SecondActionFails(m: Store, t: string, a1: string, n1: Option<string>, now1: int,
                          a2: string, now2: int)
    requires Decide(m, t, a1, now1).Accepted?
    ensures Decide(StoreAfterProcess(m, t, a1, n1, now1), t, a2, now2).Rejected?
    ensures var m' := StoreAfterProcess(m, t, a1, n1, now1);
      !IsExpired(m'[t], now2) ==>
        ProcessResultOf(m', t, a2, now2) ==
          ProcessFailed("This estimate has already been " + StatusValue(m'[t].status), Some(m'[t].status))
  {
  }

  /** An approved estimate viewed after expiry is recorded as expired and no longer counts as approved. */
  lemma LateViewUnapproves(m: Store, t: string, now: int)
    requires t in m && m[t].status == Approved && IsExpired(m[t], now)
    ensures CountStatus(StoreAfterLookup(m, t, now), Approved) == CountStatus(m, Approved) - 1
    ensures CountStatus(StoreAfterLookup(m, t, now), Expired) == CountStatus(m, Expired) + 1
  {
    var m' := StoreAfterLookup(m, t, now);
    var rest := m.Keys - {t};
    assert m.Keys == rest + {t};
    assert WithStatus(m', rest, Approved) == WithStatus(m, rest, Approved);
    assert WithStatus(m', rest, Expired) == WithStatus(m, rest, Expired);
    WithStatusAdd(m, rest, t, Approved);
    WithStatusAdd(m', rest, t, Approved);
    WithStatusAdd(m, rest, t, Expired);
    WithStatusAdd(m', rest, t, Expired);
  }

  /** The action word is matched case-insensitively. */
  lemma ActionsIgnoreCase()
    ensures StatusForAction("APPROVE") == Some(Approved)
    ensures StatusForAction("Decline") == Some(Declined)
    ensures StatusForAction("CallBack") == Some(CallbackRequested)
    ensures StatusForAction("yes") == None
  {
    assert Lower("APPROVE") == "approve";
    assert Lower("Decline") == "decline";
    assert Lower("CallBack") == "callback";
  }

  // ---------------------------------------------------------------------------
  // The service object
  // ---------------------------------------------------------------------------

  /** `ApprovalService`: the token store and the public base URL links are built on. */
  class ApprovalService {
    var tokens: Store
    const baseUrl: string

    constructor(baseUrl: string)
      ensures this.baseUrl == baseUrl && tokens == map[]
    {
      this.baseUrl := baseUrl;
      tokens := map[];
    }

    /** `token` is the freshly generated secret; `customer` is the estimate's customer record. */
    method GenerateApprovalLink(token: string, estimateId: string, estimateData: EstimateData,
                                customer: map<string, string>, now: int) returns (r: ApprovalLink)
      modifies this
      ensures tokens == old(tokens)[token := NewEntry(token, estimateId, estimateData, customer, now)]
      ensures r == LinkFor(baseUrl, token, customer, now)
    {
      tokens := tokens[token := NewEntry(token, estimateId, estimateData, customer, now)];
      r := LinkFor(baseUrl, token, customer, now);
    }

    method GetEstimateByToken(token: string, now: int) returns (r: Lookup)
      modifies this
      ensures r == LookupOf(old(tokens), token, now)
      ensures tokens == StoreAfterLookup(old(tokens), token, now)
    {
      r := LookupOf(tokens, token, now);
      if token in tokens && IsExpired(tokens[token], now) {
        tokens := tokens[token := tokens[token].(status := Expired)];
      }
    }

    method ProcessApproval(token: string, action: string, notes: Option<string>, now: int)
      returns (r: ProcessResult)
      modifies this
      ensures r == ProcessResultOf(old(tokens), token, action, now)
      ensures tokens == StoreAfterProcess(old(tokens), token, action, notes, now)
    {
      r := ProcessResultOf(tokens, token, action, now);
      if r.ProcessDone? {
        var e := tokens[token];
        tokens := tokens[token := e.(status := r.status, actions := e.actions + [ActionRecord(action, now, notes)])];
      }
    }

    /** Counts the entries by status in one pass over the store. */
    method GetApprovalStats() returns (st: Stats)
      ensures st == StatsOf(tokens)
    {
      var m := tokens;
      var pending, approved, declined, callback, expired := 0, 0, 0, 0, 0;
      var done: set<string>, todo := {}, m.Keys;
      while todo != {}
        invariant done !! todo && done + todo == m.Keys
        invariant pending == |WithStatus(m, done, Pending)|
        invariant approved == |WithStatus(m, done, Approved)|
        invariant declined == |WithStatus(m, done, Declined)|
        invariant callback == |WithStatus(m, done, CallbackRequested)|
        invariant expired == |WithStatus(m, done, Expired)|
        decreases todo
      {
        var k :| k in todo;
        CountStep(m, done, k);
        done, todo := done + {k}, todo - {k};
        match m[k].status
        case Pending => pending := pending + 1;
        case Approved => approved := approved + 1;
        case Declined => declined := declined + 1;
        case CallbackRequested => callback := callback + 1;
        case Expired => expired := expired + 1;
      }
      st := Stats(|m|, pending, approved, declined, callback, expired, RateOf(approved, declined));
    }

    method SendNotification(token: string, channel: string) returns (r: Notification)
      ensures r == NotificationOf(tokens, baseUrl, token, channel)
    {
      if token !in tokens {
        return NotifyFailed("Token not found");
      }
      var customer := tokens[token].customer;
      if channel == "sms" {
        r := SmsSent(customer.phone, "Your estimate is ready! View: " + ApprovalUrl(baseUrl, token));
      } else if channel == "email" {
        r := EmailSent(customer.email, EmailSubject);
      } else {
        r := NotifyFailed("Unknown method: " + channel);
      }
    }
  }
}
