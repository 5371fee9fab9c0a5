/**
 * The security screen (`SecurityDashboard`): three tabs showing pending access
 * requests, firewall events and the audit trail. Approving or rejecting a request
 * takes it off the list.
 */
module Security {
  import opened Seqs
  import opened Ui

  datatype AccessRequest = AccessRequest(id: int, user: string, role: string, api: string, status: string, time: string)

  function RequestId(r: AccessRequest): int { r.id }

  datatype WafLog = WafLog(id: int, ip: string, attack: string, action: string, time: string)

  datatype AuditLog = AuditLog(id: int, user: string, action: string, target: string, time: string, status: string)

  const InitialRequests: seq<AccessRequest> := [
    AccessRequest(1, "zhang_san", "Operator", "Match Data API", "pending", "10 mins ago"),
    AccessRequest(2, "li_si", "Viewer", "Player Stats API", "pending", "1 hour ago")
  ]

  /** The tabs; the buttons set `activeTab` to one of these. */
  const AccessTab: string := "access"
  const NetworkTab: string := "network"
  const AuditTab: string := "audit"

  datatype Panel = AccessPanel | NetworkPanel | AuditPanel

  /** The panels rendered for a value of `activeTab`: each is guarded by its own comparison. */
  function PanelsShown(activeTab: string): (r: set<Panel>)
    ensures AccessPanel in r <==> activeTab == AccessTab
    ensures NetworkPanel in r <==> activeTab == NetworkTab
    ensures AuditPanel in r <==> activeTab == AuditTab
    ensures |r| <= 1
  {
    if activeTab == AccessTab then {AccessPanel}
    else if activeTab == NetworkTab then {NetworkPanel}
    else if activeTab == AuditTab then {AuditPanel}
    else {}
  }

  /** What the requests grid holds: the empty-state text, or one card per pending request. */
  datatype AccessView = EmptyState | RequestCards(cards: seq<AccessRequest>)

  /** The requests grid: the empty-state text exactly when nothing is pending, otherwise the cards in list order. */
  function AccessContent(requests: seq<AccessRequest>): (r: AccessView)
    ensures r == EmptyState <==> requests == []
    ensures r.RequestCards? ==> r.cards == requests && |r.cards| > 0
  {
    if |requests| == 0 then EmptyState else RequestCards(requests)
  }

  /** The status badge of an audit entry: green for `Success`, red for anything else. */
  function AuditVariant(status: string): (v: Variant)
    ensures v == Success <==> status == "Success"
    ensures v == Success || v == Danger
  {
    if status == "Success" then Success else Danger
  }

  class SecurityDashboard {
    var activeTab: string
    var accessRequests: seq<AccessRequest>
    var wafLogs: seq<WafLog>
    var auditLogs: seq<AuditLog>

    /** Request ids are unique. */
    ghost predicate Valid()
      reads this
    {
      UniqueKeys(accessRequests, RequestId)
    }

    constructor (requests: seq<AccessRequest>, waf: seq<WafLog>, audit: seq<AuditLog>)
      requires UniqueKeys(requests, RequestId)
      ensures Valid()
      ensures activeTab == AccessTab && accessRequests == requests && wafLogs == waf && auditLogs == audit
    {
      activeTab := AccessTab;
      accessRequests := requests;
      wafLogs := waf;
      auditLogs := audit;
    }

    /** A tab button: exactly that panel is rendered afterwards. */
    method SetTab(tab: string)
      requires Valid()
      requires tab == AccessTab || tab == NetworkTab || tab == AuditTab
      modifies this`activeTab
      ensures Valid() && activeTab == tab
      ensures |PanelsShown(activeTab)| == 1
    {
      activeTab := tab;
    }

    /** The effect shared by both buttons of a request card: the request with that id leaves the list. */
    method Dismiss(id: int)
      requires Valid()
      modifies this`accessRequests
      ensures Valid()
      ensures accessRequests == WithoutKey(old(accessRequests), RequestId, id)
      ensures !HasKey(accessRequests, RequestId, id) && IsSubseq(accessRequests, old(accessRequests))
    {
      WithoutKeyKeepsUnique(accessRequests, RequestId, id);
      accessRequests := WithoutKey(accessRequests, RequestId, id);
    }

    /** `handleApprove`: the approved request is no longer pending; no other state changes. */
    method Approve(id: int)
      requires Valid()
      modifies this`accessRequests
      ensures Valid()
      ensures accessRequests == WithoutKey(old(accessRequests), RequestId, id)
    {
      Dismiss(id);
    }

    /** `handleReject`: has the same effect on the list as approving. */
    method Reject(id: int)
      requires Valid()
      modifies this`accessRequests
      ensures Valid()
      ensures accessRequests == WithoutKey(old(accessRequests), RequestId, id)
    {
      Dismiss(id);
    }
  }

  /** The list left after deciding, one after another, the requests with the ids in `decided`. */
  function DismissAll(requests: seq<AccessRequest>, decided: seq<int>): seq<AccessRequest>
    decreases |decided|
  {
    if decided == [] then requests
    else DismissAll(WithoutKey(requests, RequestId, decided[0]), decided[1..])
  }

  /** Deciding a series of requests leaves exactly those whose id was not decided, whatever the order. */
  lemma {:induction false} DismissAllLeavesUndecided(requests: seq<AccessRequest>, decided: seq<int>)
    ensures forall r :: r in DismissAll(requests, decided) <==> r in requests && r.id !in decided
    decreases |decided|
  {
    if decided != [] {
      DismissAllLeavesUndecided(WithoutKey(requests, RequestId, decided[0]), decided[1..]);
      assert forall k :: k in decided <==> k == decided[0] || k in decided[1..];
    }
  }

  /** Deciding the id of every pending request leaves none pending, so the empty state shows. */
  lemma DecidingAllLeavesNone(requests: seq<AccessRequest>, decided: seq<int>)
    requires forall r :: r in requests ==> r.id in decided
    ensures forall r :: r !in DismissAll(requests, decided)
    ensures AccessContent(DismissAll(requests, decided)) == EmptyState
  {
    DismissAllLeavesUndecided(requests, decided);
    NoMembersEmpty(DismissAll(requests, decided));
  }

  /** The two requests the screen starts with have distinct ids, and deciding both shows the empty state. */
  lemma InitialRequestsDecided()
    ensures UniqueKeys(InitialRequests, RequestId)
    ensures AccessContent(InitialRequests).RequestCards?
    ensures AccessContent(DismissAll(InitialRequests, [2, 1])) == EmptyState
  {
    assert forall r :: r in InitialRequests ==> r.id in [2, 1];
    DecidingAllLeavesNone(InitialRequests, [2, 1]);
  }
}
