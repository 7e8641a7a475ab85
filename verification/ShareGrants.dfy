/** Who may route what: the grants a person holds, what an approval adds and what a
    revocation takes away. */
module ShareGrants {
  import opened Wrappers

  type PersonId = nat

  /** A machine's id, with or without the display suffix that names the same machine. */
  datatype NodeId = NodeId(key: nat, suffix: Option<nat>)

  /** A screen endpoint, of the machine or of one of its monitors, or any other endpoint. */
  datatype CapId = Screen(node: NodeId, monitor: Option<nat>) | Endpoint(name: nat)

  datatype Media = Audio | Video | Display | Input | Storage | Clipboard | Generic

  datatype Flow = Source | Sink | Duplex

  datatype Role = Provide | Consume | Both

  /** An id made from a grant's contents, or one from elsewhere. */
  datatype GrantId = Scoped(person: PersonId, media: Media, role: Role, capability: Option<CapId>) | Named(n: nat)

  /** A grant without a capability covers every endpoint of its media. */
  datatype Grant = Grant(id: GrantId, media: Media, role: Role, capability: Option<CapId>)

  datatype Relationship = Mine | Unclaimed | Shared(person: PersonId, grants: seq<Grant>)

  datatype Node = Node(id: NodeId, relationship: Relationship)

  datatype Capability = Capability(id: CapId, node: NodeId, media: Media, flow: Flow)

  datatype Route = Route(from: CapId, to: CapId)

  datatype Catalog = Catalog(nodes: seq<Node>, capabilities: seq<Capability>, routes: seq<Route>)

  datatype Request = Request(node: NodeId, person: PersonId, media: Media, role: Role, capability: CapId)

  datatype Reason =
    | ToItself | UnknownFrom | UnknownTo | UnclaimedFrom | UnclaimedTo | CannotSend | CannotReceive | MediaMismatch

  datatype Proposal = Allowed(route: Route, media: Media) | Refused(reason: Reason) | Denied(requests: seq<Request>)

  // Screen shares

  /** The machine all of whose screens a display grant stands for. */
  function ScreenKey(media: Media, role: Role, capability: Option<CapId>): Option<nat> {
    if media == Display && role != Consume && capability.Some? && capability.value.Screen?
    then Some(capability.value.node.key) else None
  }

  /** What a grant keeps of an endpoint: a monitor's screen becomes its machine's. */
  function Durable(media: Media, role: Role, capability: Option<CapId>): Option<CapId> {
    if ScreenKey(media, role, capability).Some? then Some(Screen(capability.value.node, None)) else capability
  }

  predicate MediaFits(a: Media, b: Media) {
    a == b || a == Generic || b == Generic
  }

  predicate Permits(g: Grant, media: Media, role: Role, cap: CapId) {
    && MediaFits(g.media, media)
    && (g.capability.Some? && g.capability.value != cap ==>
          var scope := ScreenKey(g.media, g.role, g.capability);
          scope.Some? && scope == ScreenKey(media, g.role, Some(cap)) && role == Provide)
    && match role
       case Provide => g.role == Provide || g.role == Both
       case Consume => g.role == Consume || g.role == Both
       case Both => g.role == Both
  }

  // The catalog's rules

  function FindNode(nodes: seq<Node>, id: NodeId): (r: Option<nat>)
    ensures r.Some? ==> r.value < |nodes| && nodes[r.value].id == id
  {
    if nodes == [] then None
    else if nodes[0].id == id then Some(0)
    else var rest := FindNode(nodes[1..], id); if rest.Some? then Some(rest.value + 1) else None
  }

  function FindCapability(capabilities: seq<Capability>, id: CapId): (r: Option<Capability>)
    ensures r.Some? ==> r.value in capabilities && r.value.id == id
  {
    if capabilities == [] then None
    else if capabilities[0].id == id then Some(capabilities[0])
    else FindCapability(capabilities[1..], id)
  }

  predicate HeldBy(node: Node, person: PersonId) {
    node.relationship.Shared? && node.relationship.person == person
  }

  /** Some grant of the person, on whichever of their nodes, covers this. */
  predicate Covered(nodes: seq<Node>, person: PersonId, media: Media, role: Role, cap: CapId) {
    exists i :: 0 <= i < |nodes| && NodeCovers(nodes[i], person, media, role, cap)
  }

  predicate NodeCovers(node: Node, person: PersonId, media: Media, role: Role, cap: CapId) {
    HeldBy(node, person) && exists g :: g in node.relationship.grants && Permits(g, media, role, cap)
  }

  /** The person an endpoint's machine is shared with; none for any other endpoint. */
  function Sharer(cat: Catalog, cap: CapId): Option<PersonId> {
    var found := FindCapability(cat.capabilities, cap);
    if found.None? then None
    else
      var at := FindNode(cat.nodes, found.value.node);
      if at.None? || !cat.nodes[at.value].relationship.Shared? then None
      else Some(cat.nodes[at.value].relationship.person)
  }

  function CheckEndpoint(cat: Catalog, cap: CapId, media: Media, role: Role): Option<Request> {
    var person := Sharer(cat, cap);
    if person.None? || Covered(cat.nodes, person.value, media, role, cap) then None
    else
      var durable := Durable(media, role, Some(cap));
      Some(Request(FindCapability(cat.capabilities, cap).value.node, person.value, media, role, durable.value))
  }

  function RouteMedia(cat: Catalog, from: CapId): Media {
    var src := FindCapability(cat.capabilities, from);
    if src.Some? then src.value.media else Generic
  }

  function AsSeq<T>(o: Option<T>): seq<T> {
    if o.Some? then [o.value] else []
  }

  function RequiredGrants(cat: Catalog, from: CapId, to: CapId): seq<Request> {
    AsSeq(CheckEndpoint(cat, from, RouteMedia(cat, from), Provide))
      + AsSeq(CheckEndpoint(cat, to, RouteMedia(cat, from), Consume))
  }

  predicate IsUnclaimed(nodes: seq<Node>, id: NodeId) {
    var at := FindNode(nodes, id);
    at.Some? && nodes[at.value].relationship.Unclaimed?
  }

  function ValidateRoute(cat: Catalog, from: CapId, to: CapId): (p: Proposal)
    ensures !p.Denied?
  {
    var src, dst := FindCapability(cat.capabilities, from), FindCapability(cat.capabilities, to);
    if from == to then Refused(ToItself)
    else if src.None? then Refused(UnknownFrom)
    else if dst.None? then Refused(UnknownTo)
    else if IsUnclaimed(cat.nodes, src.value.node) then Refused(UnclaimedFrom)
    else if IsUnclaimed(cat.nodes, dst.value.node) then Refused(UnclaimedTo)
    else if src.value.flow == Sink then Refused(CannotSend)
    else if dst.value.flow == Source then Refused(CannotReceive)
    else if !MediaFits(src.value.media, dst.value.media) then Refused(MediaMismatch)
    else Allowed(Route(from, to), if src.value.media != Generic then src.value.media else dst.value.media)
  }

  function ProposeRoute(cat: Catalog, from: CapId, to: CapId): Proposal {
    var structural := ValidateRoute(cat, from, to);
    if !structural.Allowed? then structural
    else
      var denied := RequiredGrants(cat, from, to);
      if denied != [] then Denied(denied) else structural
  }

  // What is let through, told apart from how it is found

  /** Where the first node of an id stands. */
  ghost predicate FirstNode(nodes: seq<Node>, id: NodeId, k: nat) {
    k < |nodes| && nodes[k].id == id && forall j :: 0 <= j < k ==> nodes[j].id != id
  }

  ghost predicate FirstEndpoint(capabilities: seq<Capability>, id: CapId, k: nat) {
    k < |capabilities| && capabilities[k].id == id && forall j :: 0 <= j < k ==> capabilities[j].id != id
  }

  lemma {:induction false} FindNodeFirst(nodes: seq<Node>, id: NodeId, k: nat)
    ensures FindNode(nodes, id) == Some(k) <==> FirstNode(nodes, id, k)
  {
    if nodes == [] {
    } else if k > 0 {
      FindNodeFirst(nodes[1..], id, k - 1);
      if nodes[0].id != id && FirstNode(nodes[1..], id, k - 1) {
        forall j | 0 <= j < k ensures nodes[j].id != id {
          assert j > 0 ==> nodes[j] == nodes[1..][j - 1];
        }
      }
      if FirstNode(nodes, id, k) {
        forall j | 0 <= j < k - 1 ensures nodes[1..][j].id != id {
          assert nodes[1..][j] == nodes[j + 1];
        }
      }
    }
  }

  lemma {:induction false} FindCapabilityFirst(capabilities: seq<Capability>, id: CapId) returns (k: nat)
    ensures FindCapability(capabilities, id).Some? ==>
      FirstEndpoint(capabilities, id, k) && capabilities[k] == FindCapability(capabilities, id).value
    ensures FindCapability(capabilities, id).None? ==> forall c :: c in capabilities ==> c.id != id
  {
    if capabilities == [] {
      k := 0;
    } else if capabilities[0].id == id {
      k := 0;
    } else {
      var rest := FindCapabilityFirst(capabilities[1..], id);
      k := rest + 1;
      if FindCapability(capabilities, id).Some? {
        forall j | 0 <= j < k ensures capabilities[j].id != id {
          assert j > 0 ==> capabilities[j] == capabilities[1..][j - 1];
        }
      } else {
        assert capabilities == [capabilities[0]] + capabilities[1..];
      }
    }
  }

  lemma FirstEndpointUnique(capabilities: seq<Capability>, id: CapId, a: nat, b: nat)
    requires FirstEndpoint(capabilities, id, a) && FirstEndpoint(capabilities, id, b)
    ensures a == b
  {
  }

  /** A grant reaches an endpoint of its media, or of any media if either is generic, in its own
      direction or in both, if it names no endpoint, this one or, to send a screen, any screen
      of the same machine. */
  ghost predicate Reaches(g: Grant, media: Media, role: Role, cap: CapId) {
    && (g.media == media || g.media == Generic || media == Generic)
    && (g.role == role || g.role == Both)
    && (g.capability == None || g.capability == Some(cap)
        || (role == Provide && g.media == media == Display && cap.Screen? && g.capability.value.Screen?
            && cap.node.key == g.capability.value.node.key))
  }

  lemma PermitsIsReach(g: Grant, media: Media, role: Role, cap: CapId)
    ensures Permits(g, media, role, cap) <==> Reaches(g, media, role, cap)
  {
  }

  /** The person a grant of whom reaches the endpoint. */
  ghost predicate Opens(node: Node, person: PersonId, g: Grant, media: Media, role: Role, cap: CapId) {
    && node.relationship.Shared? && node.relationship.person == person
    && g in node.relationship.grants && Reaches(g, media, role, cap)
  }

  /** An endpoint on a machine shared with nobody, or that a grant its person holds on any
      machine reaches. */
  ghost predicate EndOpen(cat: Catalog, c: Capability, media: Media, role: Role) {
    forall k: nat :: FirstNode(cat.nodes, c.node, k) && cat.nodes[k].relationship.Shared? ==>
      exists node, g :: node in cat.nodes && Opens(node, cat.nodes[k].relationship.person, g, media, role, c.id)
  }

  ghost predicate OnUnclaimed(cat: Catalog, c: Capability) {
    exists k: nat :: FirstNode(cat.nodes, c.node, k) && cat.nodes[k].relationship.Unclaimed?
  }

  /** Two different known endpoints on claimed machines, the one able to send, the other to
      receive, of one media or one of them of any. */
  ghost predicate Sound(cat: Catalog, from: CapId, to: CapId, a: nat, b: nat) {
    && from != to && FirstEndpoint(cat.capabilities, from, a) && FirstEndpoint(cat.capabilities, to, b)
    && var src, dst := cat.capabilities[a], cat.capabilities[b];
    && !OnUnclaimed(cat, src) && !OnUnclaimed(cat, dst)
    && (src.flow == Source || src.flow == Duplex) && (dst.flow == Sink || dst.flow == Duplex)
    && (src.media == dst.media || src.media == Generic || dst.media == Generic)
  }

  ghost predicate MayWire(cat: Catalog, from: CapId, to: CapId) {
    exists a: nat, b: nat :: Sound(cat, from, to, a, b)
  }

  ghost predicate BothOpen(cat: Catalog, a: nat, b: nat)
    requires a < |cat.capabilities| && b < |cat.capabilities|
  {
    var src, dst := cat.capabilities[a], cat.capabilities[b];
    EndOpen(cat, src, src.media, Provide) && EndOpen(cat, dst, src.media, Consume)
  }

  lemma CheckIffOpen(cat: Catalog, cap: CapId, media: Media, role: Role, c: Capability)
    requires FindCapability(cat.capabilities, cap) == Some(c)
    ensures CheckEndpoint(cat, cap, media, role).None? <==> EndOpen(cat, c, media, role)
  {
    var at := FindNode(cat.nodes, c.node);
    forall k: nat ensures FirstNode(cat.nodes, c.node, k) <==> at == Some(k) {
      FindNodeFirst(cat.nodes, c.node, k);
    }
    if Sharer(cat, cap).Some? {
      CoveredIsOpen(cat.nodes, Sharer(cat, cap).value, media, role, cap);
    }
  }

  lemma CoveredIsOpen(nodes: seq<Node>, person: PersonId, media: Media, role: Role, cap: CapId)
    ensures Covered(nodes, person, media, role, cap) <==>
      exists node, g :: node in nodes && Opens(node, person, g, media, role, cap)
  {
    if node, g :| node in nodes && Opens(node, person, g, media, role, cap) {
      var i :| 0 <= i < |nodes| && nodes[i] == node;
      PermitsIsReach(g, media, role, cap);
      assert NodeCovers(nodes[i], person, media, role, cap);
    }
    if Covered(nodes, person, media, role, cap) {
      var i :| 0 <= i < |nodes| && NodeCovers(nodes[i], person, media, role, cap);
      var g :| g in nodes[i].relationship.grants && Permits(g, media, role, cap);
      PermitsIsReach(g, media, role, cap);
      assert Opens(nodes[i], person, g, media, role, cap);
    }
  }

  lemma UnclaimedIff(cat: Catalog, c: Capability)
    ensures IsUnclaimed(cat.nodes, c.node) <==> OnUnclaimed(cat, c)
  {
    forall k: nat ensures FindNode(cat.nodes, c.node) == Some(k) <==> FirstNode(cat.nodes, c.node, k) {
      FindNodeFirst(cat.nodes, c.node, k);
    }
  }

  /** The structural half: which two endpoints may be wired, and what the route carries. */
  lemma ValidIff(cat: Catalog, from: CapId, to: CapId)
    ensures ValidateRoute(cat, from, to).Allowed? <==> MayWire(cat, from, to)
    ensures forall a: nat, b: nat :: Sound(cat, from, to, a, b) ==>
      var src, dst := cat.capabilities[a], cat.capabilities[b];
      && FindCapability(cat.capabilities, from) == Some(src) && FindCapability(cat.capabilities, to) == Some(dst)
      && ValidateRoute(cat, from, to) ==
        Allowed(Route(from, to), if src.media == Generic then dst.media else src.media)
  {
    var a := FindCapabilityFirst(cat.capabilities, from);
    var b := FindCapabilityFirst(cat.capabilities, to);
    var src, dst := FindCapability(cat.capabilities, from), FindCapability(cat.capabilities, to);
    if src.Some? {
      UnclaimedIff(cat, src.value);
    }
    if dst.Some? {
      UnclaimedIff(cat, dst.value);
    }
    if ValidateRoute(cat, from, to).Allowed? {
      assert Sound(cat, from, to, a, b);
    }
    forall i: nat, j: nat | Sound(cat, from, to, i, j) ensures src.Some? && dst.Some? && i == a && j == b {
      assert cat.capabilities[i] in cat.capabilities && cat.capabilities[j] in cat.capabilities;
      FirstEndpointUnique(cat.capabilities, from, a, i);
      FirstEndpointUnique(cat.capabilities, to, b, j);
    }
  }

  /** A connection is let through if and only if its endpoints may be wired and each is open,
      the one to send and the other to receive the sender's media; and then it is the route from
      the one to the other, of the sender's media or, if that is generic, the receiver's. */
  lemma ProposeAllowsIff(cat: Catalog, from: CapId, to: CapId)
    ensures ProposeRoute(cat, from, to).Allowed? <==>
      exists a: nat, b: nat :: Sound(cat, from, to, a, b) && BothOpen(cat, a, b)
    ensures forall a: nat, b: nat :: Sound(cat, from, to, a, b) && BothOpen(cat, a, b) ==>
      var src, dst := cat.capabilities[a], cat.capabilities[b];
      ProposeRoute(cat, from, to) == Allowed(Route(from, to), if src.media == Generic then dst.media else src.media)
    ensures ProposeRoute(cat, from, to).Denied? <==>
      exists a: nat, b: nat :: Sound(cat, from, to, a, b) && !BothOpen(cat, a, b)
  {
    ValidIff(cat, from, to);
    forall a: nat, b: nat | Sound(cat, from, to, a, b)
      ensures RequiredGrants(cat, from, to) == [] <==> BothOpen(cat, a, b)
    {
      CheckIffOpen(cat, from, RouteMedia(cat, from), Provide, cat.capabilities[a]);
      CheckIffOpen(cat, to, RouteMedia(cat, from), Consume, cat.capabilities[b]);
    }
  }

  // Granting

  function RequestToGrant(r: Request): Grant {
    var capability := Durable(r.media, r.role, Some(r.capability));
    Grant(Scoped(r.person, r.media, r.role, capability), r.media, r.role, capability)
  }

  predicate SameScope(a: Grant, b: Grant) {
    a.media == b.media && a.role == b.role && a.capability == b.capability
  }

  predicate HasScope(node: Node, person: PersonId, grant: Grant) {
    HeldBy(node, person) && exists g :: g in node.relationship.grants && SameScope(g, grant)
  }

  predicate PersonHas(nodes: seq<Node>, person: PersonId, grant: Grant) {
    exists i :: 0 <= i < |nodes| && HasScope(nodes[i], person, grant)
  }

  /** The grant as it is recorded. */
  function Recorded(person: PersonId, grant: Grant): Grant {
    var durable := grant.(capability := Durable(grant.media, grant.role, grant.capability));
    if ScreenKey(durable.media, durable.role, durable.capability).Some?
    then durable.(id := Scoped(person, durable.media, durable.role, durable.capability))
    else durable
  }

  function AddGrant(node: Node, grant: Grant): Node
    requires node.relationship.Shared?
  {
    node.(relationship := node.relationship.(grants := node.relationship.grants + [grant]))
  }

  /** One grant added on a node, unless the person has its like anywhere. */
  function GrantTo(cat: Catalog, id: NodeId, grant: Grant): Catalog {
    var at := FindNode(cat.nodes, id);
    if at.None? || !cat.nodes[at.value].relationship.Shared? then cat
    else
      var node := cat.nodes[at.value];
      var recorded := Recorded(node.relationship.person, grant);
      if PersonHas(cat.nodes, node.relationship.person, recorded) then cat
      else cat.(nodes := cat.nodes[at.value := AddGrant(node, recorded)])
  }

  /** How a grant is kept: a share of a monitor's screen out of a machine as one of all that
      machine's screens, under the id its contents make; any other as it is. */
  ghost predicate KeptAs(person: PersonId, grant: Grant, kept: Grant) {
    if grant.media == Display && grant.role != Consume && grant.capability.Some? && grant.capability.value.Screen? then
      var screens := Some(Screen(grant.capability.value.node, None));
      kept == Grant(Scoped(person, Display, grant.role, screens), Display, grant.role, screens)
    else kept == grant
  }

  ghost predicate HasLike(node: Node, person: PersonId, g: Grant, kept: Grant) {
    && node.relationship.Shared? && node.relationship.person == person && g in node.relationship.grants
    && g.media == kept.media && g.role == kept.role && g.capability == kept.capability
  }

  /** Granting on a shared machine adds the grant there, after those it has, unless its person
      holds one of the same media, direction and endpoint on whichever machine. */
  lemma GrantAddsOnce(cat: Catalog, id: NodeId, grant: Grant, at: nat, kept: Grant)
    requires FirstNode(cat.nodes, id, at) && cat.nodes[at].relationship.Shared?
    requires KeptAs(cat.nodes[at].relationship.person, grant, kept)
    ensures var person, grants := cat.nodes[at].relationship.person, cat.nodes[at].relationship.grants;
            GrantTo(cat, id, grant) ==
              if exists node, g :: node in cat.nodes && HasLike(node, person, g, kept) then cat
              else cat.(nodes := cat.nodes[at := Node(id, Shared(person, grants + [kept]))])
  {
    var person := cat.nodes[at].relationship.person;
    FindNodeFirst(cat.nodes, id, at);
    assert Recorded(person, grant) == kept;
    if node, g :| node in cat.nodes && HasLike(node, person, g, kept) {
      var i :| 0 <= i < |cat.nodes| && cat.nodes[i] == node;
      assert SameScope(g, kept) && HasScope(cat.nodes[i], person, kept);
    }
    if PersonHas(cat.nodes, person, kept) {
      var i :| 0 <= i < |cat.nodes| && HasScope(cat.nodes[i], person, kept);
      var g :| g in cat.nodes[i].relationship.grants && SameScope(g, kept);
      assert HasLike(cat.nodes[i], person, g, kept);
    }
  }

  function GrantAll(cat: Catalog, requests: seq<Request>): Catalog
    decreases |requests|
  {
    if requests == [] then cat
    else GrantAll(GrantTo(cat, requests[0].node, RequestToGrant(requests[0])), requests[1..])
  }

  // Monotonicity

  /** The same nodes and standings, each with at least the grants it had. */
  ghost predicate Extends(before: Catalog, after: Catalog) {
    && before.capabilities == after.capabilities && before.routes == after.routes && |before.nodes| == |after.nodes|
    && forall i :: 0 <= i < |before.nodes| ==> NodeExtends(before.nodes[i], after.nodes[i])
  }

  ghost predicate NodeExtends(a: Node, b: Node) {
    && a.id == b.id && (a.relationship.Unclaimed? <==> b.relationship.Unclaimed?)
    && (a.relationship.Shared? <==> b.relationship.Shared?)
    && (a.relationship.Shared? ==>
          && a.relationship.person == b.relationship.person
          && forall g :: g in a.relationship.grants ==> g in b.relationship.grants)
  }

  lemma {:induction false} FindNodeExtends(a: seq<Node>, b: seq<Node>, id: NodeId)
    requires |a| == |b| && forall i :: 0 <= i < |a| ==> NodeExtends(a[i], b[i])
    ensures FindNode(a, id) == FindNode(b, id)
  {
    if a == [] {
    } else {
      assert NodeExtends(a[0], b[0]);
      FindNodeExtends(a[1..], b[1..], id);
    }
  }

  lemma SharerExtends(before: Catalog, after: Catalog, cap: CapId)
    requires Extends(before, after)
    ensures Sharer(before, cap) == Sharer(after, cap)
  {
    var found := FindCapability(before.capabilities, cap);
    if found.Some? {
      FindNodeExtends(before.nodes, after.nodes, found.value.node);
      var at := FindNode(before.nodes, found.value.node);
      assert at.Some? ==> NodeExtends(before.nodes[at.value], after.nodes[at.value]);
    }
  }

  lemma CoveredExtends(before: Catalog, after: Catalog, person: PersonId, media: Media, role: Role, cap: CapId)
    requires Extends(before, after) && Covered(before.nodes, person, media, role, cap)
    ensures Covered(after.nodes, person, media, role, cap)
  {
    var i :| 0 <= i < |before.nodes| && NodeCovers(before.nodes[i], person, media, role, cap);
    assert NodeExtends(before.nodes[i], after.nodes[i]);
    assert NodeCovers(after.nodes[i], person, media, role, cap);
  }

  /** More grants never take a permission away, and what is structurally sound stays so. */
  lemma GrantsMonotone(before: Catalog, after: Catalog, from: CapId, to: CapId)
    requires Extends(before, after)
    ensures ValidateRoute(after, from, to) == ValidateRoute(before, from, to)
    ensures RequiredGrants(before, from, to) == [] ==> RequiredGrants(after, from, to) == []
  {
    CheckExtends(before, after, from, RouteMedia(before, from), Provide);
    CheckExtends(before, after, to, RouteMedia(before, from), Consume);
    UnclaimedExtends(before, after, from);
    UnclaimedExtends(before, after, to);
  }

  lemma CheckExtends(before: Catalog, after: Catalog, cap: CapId, media: Media, role: Role)
    requires Extends(before, after)
    ensures CheckEndpoint(before, cap, media, role).None? ==> CheckEndpoint(after, cap, media, role).None?
  {
    SharerExtends(before, after, cap);
    var person := Sharer(before, cap);
    if person.Some? && Covered(before.nodes, person.value, media, role, cap) {
      CoveredExtends(before, after, person.value, media, role, cap);
    }
  }

  lemma UnclaimedExtends(before: Catalog, after: Catalog, cap: CapId)
    requires Extends(before, after)
    ensures var found := FindCapability(before.capabilities, cap);
            found.Some? ==>
              (IsUnclaimed(before.nodes, found.value.node) <==> IsUnclaimed(after.nodes, found.value.node))
  {
    var found := FindCapability(before.capabilities, cap);
    if found.Some? {
      FindNodeExtends(before.nodes, after.nodes, found.value.node);
      var at := FindNode(before.nodes, found.value.node);
      assert at.Some? ==> NodeExtends(before.nodes[at.value], after.nodes[at.value]);
    }
  }

  // Approval is enough, and no more than enough

  /** A request the catalog makes: its node is shared with its person. */
  ghost predicate Addressed(cat: Catalog, r: Request) {
    var at := FindNode(cat.nodes, r.node);
    at.Some? && HeldBy(cat.nodes[at.value], r.person)
  }

  lemma GrantToExtends(cat: Catalog, id: NodeId, grant: Grant)
    ensures Extends(cat, GrantTo(cat, id, grant))
  {
  }

  lemma GrantCovers(cat: Catalog, r: Request, cap: CapId)
    requires Addressed(cat, r) && Some(r.capability) == Durable(r.media, r.role, Some(cap)) && r.role != Both
    ensures Covered(GrantTo(cat, r.node, RequestToGrant(r)).nodes, r.person, r.media, r.role, cap)
  {
    var at := FindNode(cat.nodes, r.node).value;
    var grant := Recorded(r.person, RequestToGrant(r));
    var after := GrantTo(cat, r.node, RequestToGrant(r));
    assert Permits(grant, r.media, r.role, cap);
    if PersonHas(cat.nodes, r.person, grant) {
      var i :| 0 <= i < |cat.nodes| && HasScope(cat.nodes[i], r.person, grant);
      var g :| g in cat.nodes[i].relationship.grants && SameScope(g, grant);
      assert Permits(g, r.media, r.role, cap);
      assert NodeCovers(after.nodes[i], r.person, r.media, r.role, cap);
    } else {
      assert grant in after.nodes[at].relationship.grants;
      assert NodeCovers(after.nodes[at], r.person, r.media, r.role, cap);
    }
  }

  lemma GrantAllCovers(cat: Catalog, requests: seq<Request>, r: Request, cap: CapId)
    requires r in requests && Addressed(cat, r) && Some(r.capability) == Durable(r.media, r.role, Some(cap))
      && r.role != Both
    ensures Covered(GrantAll(cat, requests).nodes, r.person, r.media, r.role, cap)
    decreases |requests|
  {
    var first, rest := requests[0], requests[1..];
    var next := GrantTo(cat, first.node, RequestToGrant(first));
    GrantToExtends(cat, first.node, RequestToGrant(first));
    GrantAllExtends(next, rest);
    if r == first {
      GrantCovers(cat, r, cap);
      CoveredExtends(next, GrantAll(next, rest), r.person, r.media, r.role, cap);
    } else {
      AddressedExtends(cat, next, r);
      GrantAllCovers(next, rest, r, cap);
    }
  }

  lemma AddressedExtends(before: Catalog, after: Catalog, r: Request)
    requires Extends(before, after) && Addressed(before, r)
    ensures Addressed(after, r)
  {
    FindNodeExtends(before.nodes, after.nodes, r.node);
    var at := FindNode(before.nodes, r.node).value;
    assert NodeExtends(before.nodes[at], after.nodes[at]);
  }

  lemma ExtendsTrans(a: Catalog, b: Catalog, c: Catalog)
    requires Extends(a, b) && Extends(b, c)
    ensures Extends(a, c)
  {
    forall i | 0 <= i < |a.nodes| ensures NodeExtends(a.nodes[i], c.nodes[i]) {
      assert NodeExtends(a.nodes[i], b.nodes[i]) && NodeExtends(b.nodes[i], c.nodes[i]);
    }
  }

  lemma {:induction false} GrantAllExtends(cat: Catalog, requests: seq<Request>)
    ensures Extends(cat, GrantAll(cat, requests))
    decreases |requests|
  {
    if requests == [] {
    } else {
      var next := GrantTo(cat, requests[0].node, RequestToGrant(requests[0]));
      GrantToExtends(cat, requests[0].node, RequestToGrant(requests[0]));
      GrantAllExtends(next, requests[1..]);
      ExtendsTrans(cat, next, GrantAll(next, requests[1..]));
    }
  }

  lemma RequestAddressed(cat: Catalog, cap: CapId, media: Media, role: Role)
    requires CheckEndpoint(cat, cap, media, role).Some?
    ensures var r := CheckEndpoint(cat, cap, media, role).value;
            && Addressed(cat, r) && Sharer(cat, cap) == Some(r.person) && r.media == media && r.role == role
            && Some(r.capability) == Durable(media, role, Some(cap))
  {
  }

  /** Granting what one end requires settles that end. */
  lemma EndSettled(cat: Catalog, requests: seq<Request>, cap: CapId, media: Media, role: Role)
    requires role != Both && forall r :: CheckEndpoint(cat, cap, media, role) == Some(r) ==> r in requests
    ensures CheckEndpoint(GrantAll(cat, requests), cap, media, role).None?
  {
    var after, asked := GrantAll(cat, requests), CheckEndpoint(cat, cap, media, role);
    GrantAllExtends(cat, requests);
    SharerExtends(cat, after, cap);
    if asked.Some? {
      RequestAddressed(cat, cap, media, role);
      GrantAllCovers(cat, requests, asked.value, cap);
    } else {
      CheckExtends(cat, after, cap, media, role);
    }
  }

  /** Approving what a structurally sound connection asks for lets it through. */
  lemma ApprovalSuffices(cat: Catalog, from: CapId, to: CapId)
    requires ValidateRoute(cat, from, to).Allowed?
    ensures ProposeRoute(GrantAll(cat, RequiredGrants(cat, from, to)), from, to) == ValidateRoute(cat, from, to)
  {
    var requests := RequiredGrants(cat, from, to);
    var media := RouteMedia(cat, from);
    var a, b := CheckEndpoint(cat, from, media, Provide), CheckEndpoint(cat, to, media, Consume);
    assert a.Some? ==> AsSeq(a)[0] == a.value && requests[0] == a.value;
    assert b.Some? ==> AsSeq(b)[0] == b.value && requests[|AsSeq(a)|] == b.value;
    EndSettled(cat, requests, from, media, Provide);
    EndSettled(cat, requests, to, media, Consume);
    GrantAllExtends(cat, requests);
    GrantsMonotone(cat, GrantAll(cat, requests), from, to);
  }

  /** What a request names: its endpoint in its direction, or, of a screen shared out, any
      screen of the same machine. */
  ghost predicate Named(r: Request, media: Media, role: Role, cap: CapId) {
    && r.role == role && (r.media == media || r.media == Generic || media == Generic)
    && (cap == r.capability
        || (r.media == Display && role == Provide && media == Display
            && cap.Screen? && r.capability.Screen? && cap.node.key == r.capability.node.key))
  }

  lemma GrantNamesOnly(r: Request, media: Media, role: Role, cap: CapId)
    requires r.role != Both && Some(r.capability) == Durable(r.media, r.role, Some(r.capability))
    requires Permits(Recorded(r.person, RequestToGrant(r)), media, role, cap)
    ensures Named(r, media, role, cap)
  {
  }

  ghost predicate Clean(r: Request) {
    r.role != Both && Some(r.capability) == Durable(r.media, r.role, Some(r.capability))
  }

  /** One grant gives its person what its request names, and gives nobody anything else. */
  lemma GrantMinimal(cat: Catalog, r: Request, person: PersonId, media: Media, role: Role, cap: CapId)
    requires Addressed(cat, r) && Clean(r)
    requires Covered(GrantTo(cat, r.node, RequestToGrant(r)).nodes, person, media, role, cap)
    ensures Covered(cat.nodes, person, media, role, cap) || (person == r.person && Named(r, media, role, cap))
  {
    var after := GrantTo(cat, r.node, RequestToGrant(r));
    var i :| 0 <= i < |after.nodes| && NodeCovers(after.nodes[i], person, media, role, cap);
    var g :| g in after.nodes[i].relationship.grants && Permits(g, media, role, cap);
    if g in cat.nodes[i].relationship.grants {
      assert NodeCovers(cat.nodes[i], person, media, role, cap);
    } else {
      GrantNamesOnly(r, media, role, cap);
    }
  }

  /** Whatever the approved requests newly allow, one of them named, for its own person. */
  lemma {:induction false} ApprovalMinimal(cat: Catalog, requests: seq<Request>, person: PersonId, media: Media,
      role: Role, cap: CapId)
    requires forall r :: r in requests ==> Addressed(cat, r) && Clean(r)
    requires Covered(GrantAll(cat, requests).nodes, person, media, role, cap)
    ensures Covered(cat.nodes, person, media, role, cap) ||
      exists r :: r in requests && person == r.person && Named(r, media, role, cap)
    decreases |requests|
  {
    if requests == [] {
    } else {
      var first, rest := requests[0], requests[1..];
      var next := GrantTo(cat, first.node, RequestToGrant(first));
      GrantToExtends(cat, first.node, RequestToGrant(first));
      forall r | r in rest ensures Addressed(next, r) {
        assert r in requests;
        AddressedExtends(cat, next, r);
      }
      ApprovalMinimal(next, rest, person, media, role, cap);
      if Covered(next.nodes, person, media, role, cap) {
        GrantMinimal(cat, first, person, media, role, cap);
      }
    }
  }

  lemma RequiredAreClean(cat: Catalog, from: CapId, to: CapId)
    ensures forall r :: r in RequiredGrants(cat, from, to) ==> Addressed(cat, r) && Clean(r)
  {
    var media := RouteMedia(cat, from);
    if CheckEndpoint(cat, from, media, Provide).Some? {
      RequestAddressed(cat, from, media, Provide);
    }
    if CheckEndpoint(cat, to, media, Consume).Some? {
      RequestAddressed(cat, to, media, Consume);
    }
  }

  /** Approving what a connection was denied for gives away no more than it was denied for:
      whatever it newly allows anybody, one of the required requests named, for its person. */
  lemma ApprovalGrantsOnlyRequired(cat: Catalog, from: CapId, to: CapId, person: PersonId, media: Media, role: Role,
      cap: CapId)
    requires Covered(GrantAll(cat, RequiredGrants(cat, from, to)).nodes, person, media, role, cap)
    ensures Covered(cat.nodes, person, media, role, cap) ||
      exists r :: r in RequiredGrants(cat, from, to) && person == r.person && Named(r, media, role, cap)
  {
    RequiredAreClean(cat, from, to);
    ApprovalMinimal(cat, RequiredGrants(cat, from, to), person, media, role, cap);
  }

  // Revoking

  function SelectedKey(node: Node, id: GrantId): Option<nat>
    requires node.relationship.Shared?
  {
    var g := FindGrant(node.relationship.grants, id);
    if g.None? then None else ScreenKey(g.value.media, g.value.role, g.value.capability)
  }

  function FindGrant(grants: seq<Grant>, id: GrantId): (r: Option<Grant>)
    ensures r.Some? ==> r.value in grants && r.value.id == id
    ensures r.None? ==> forall g :: g in grants ==> g.id != id
  {
    if grants == [] then None else if grants[0].id == id then Some(grants[0]) else FindGrant(grants[1..], id)
  }

  /** The ids of a node's grants of one machine's screens. */
  function ScreenIds(node: Node, person: PersonId, key: nat): set<GrantId> {
    if HeldBy(node, person)
    then set g | g in node.relationship.grants && ScreenKey(g.media, g.role, g.capability) == Some(key) :: g.id
    else {}
  }

  function AllScreenIds(nodes: seq<Node>, person: PersonId, key: nat): set<GrantId> {
    if nodes == [] then {}
    else AllScreenIds(nodes[..|nodes| - 1], person, key) + ScreenIds(nodes[|nodes| - 1], person, key)
  }

  /** The ids that go with the one revoked: for a screen share, every record of that
      machine's screens the person has. */
  function Revoked(nodes: seq<Node>, at: nat, id: GrantId): set<GrantId>
    requires at < |nodes| && nodes[at].relationship.Shared?
  {
    var key := SelectedKey(nodes[at], id);
    {id} + if key.Some? then AllScreenIds(nodes, nodes[at].relationship.person, key.value) else {}
  }

  function KeepGrants(grants: seq<Grant>, gone: set<GrantId>): seq<Grant> {
    if grants == [] then []
    else
      var init, last := KeepGrants(grants[..|grants| - 1], gone), grants[|grants| - 1];
      if last.id in gone then init else init + [last]
  }

  function Pull(node: Node, person: PersonId, gone: set<GrantId>): Node {
    if HeldBy(node, person)
    then node.(relationship := node.relationship.(grants := KeepGrants(node.relationship.grants, gone)))
    else node
  }

  function PullAll(nodes: seq<Node>, person: PersonId, gone: set<GrantId>): seq<Node> {
    seq(|nodes|, i requires 0 <= i < |nodes| => Pull(nodes[i], person, gone))
  }

  predicate RouteStays(cat: Catalog, roomWired: set<Route>, r: Route) {
    r in roomWired || RequiredGrants(cat, r.from, r.to) == []
  }

  function Staying(cat: Catalog, roomWired: set<Route>): set<Route> {
    set r | r in cat.routes && RouteStays(cat, roomWired, r)
  }

  function KeepRoutes(routes: seq<Route>, staying: set<Route>): seq<Route> {
    if routes == [] then []
    else
      var init, last := KeepRoutes(routes[..|routes| - 1], staying), routes[|routes| - 1];
      if last in staying then init + [last] else init
  }

  /** reauthorize */
  function Reauthorized(cat: Catalog, roomWired: set<Route>): Catalog {
    cat.(routes := KeepRoutes(cat.routes, Staying(cat, roomWired)))
  }

  function RevokeGrant(cat: Catalog, roomWired: set<Route>, node: NodeId, id: GrantId): Catalog {
    var at := FindNode(cat.nodes, node);
    if at.None? || !cat.nodes[at.value].relationship.Shared? then cat
    else
      var person := cat.nodes[at.value].relationship.person;
      Reauthorized(cat.(nodes := PullAll(cat.nodes, person, Revoked(cat.nodes, at.value, id))), roomWired)
  }

  lemma {:induction false} KeptGrants(grants: seq<Grant>, gone: set<GrantId>)
    ensures forall g :: g in KeepGrants(grants, gone) <==> g in grants && g.id !in gone
  {
    if grants == [] {
    } else {
      KeptGrants(grants[..|grants| - 1], gone);
      assert grants == grants[..|grants| - 1] + [grants[|grants| - 1]];
    }
  }

  lemma {:induction false} AllScreenIdsHold(nodes: seq<Node>, person: PersonId, key: nat, i: nat, g: Grant)
    requires i < |nodes| && HeldBy(nodes[i], person) && g in nodes[i].relationship.grants
    requires ScreenKey(g.media, g.role, g.capability) == Some(key)
    ensures g.id in AllScreenIds(nodes, person, key)
  {
    if i == |nodes| - 1 {
    } else {
      AllScreenIdsHold(nodes[..|nodes| - 1], person, key, i, g);
    }
  }

  /** After revoking a screen share, the person has no record left of that machine's
      screens, on any of their nodes; and the revoked id is gone in any case. */
  lemma RevokeClears(cat: Catalog, roomWired: set<Route>, node: NodeId, id: GrantId, i: nat, g: Grant)
    requires var at := FindNode(cat.nodes, node); at.Some? && cat.nodes[at.value].relationship.Shared?
    requires var after := RevokeGrant(cat, roomWired, node, id);
             i < |after.nodes| && HeldBy(after.nodes[i], cat.nodes[FindNode(cat.nodes, node).value].relationship.person)
             && g in after.nodes[i].relationship.grants
    ensures i < |cat.nodes| && cat.nodes[i].relationship.Shared? && g in cat.nodes[i].relationship.grants && g.id != id
    ensures var key := SelectedKey(cat.nodes[FindNode(cat.nodes, node).value], id);
            key.Some? ==> ScreenKey(g.media, g.role, g.capability) != key
  {
    var at := FindNode(cat.nodes, node).value;
    var person := cat.nodes[at].relationship.person;
    KeptGrants(cat.nodes[i].relationship.grants, Revoked(cat.nodes, at, id));
    var key := SelectedKey(cat.nodes[at], id);
    if key.Some? && ScreenKey(g.media, g.role, g.capability) == key {
      AllScreenIdsHold(cat.nodes, person, key.value, i, g);
      assert false;
    }
  }

  /** What is left of a person's cover once some of one person's grants are gone. */
  ghost predicate StillCovered(nodes: seq<Node>, revoker: PersonId, gone: set<GrantId>, person: PersonId,
      media: Media, role: Role, cap: CapId)
  {
    exists i :: 0 <= i < |nodes| && NodeStillCovers(nodes[i], revoker, gone, person, media, role, cap)
  }

  ghost predicate NodeStillCovers(node: Node, revoker: PersonId, gone: set<GrantId>, person: PersonId, media: Media,
      role: Role, cap: CapId)
  {
    HeldBy(node, person) &&
    exists g :: g in node.relationship.grants && (person == revoker ==> g.id !in gone) && Permits(g, media, role, cap)
  }

  lemma PulledNodeCovers(node: Node, revoker: PersonId, gone: set<GrantId>, person: PersonId, media: Media,
      role: Role, cap: CapId)
    ensures NodeCovers(Pull(node, revoker, gone), person, media, role, cap) <==>
      NodeStillCovers(node, revoker, gone, person, media, role, cap)
  {
    if node.relationship.Shared? {
      KeptGrants(node.relationship.grants, gone);
    }
  }

  lemma PulledCovers(nodes: seq<Node>, revoker: PersonId, gone: set<GrantId>, person: PersonId, media: Media,
      role: Role, cap: CapId)
    ensures Covered(PullAll(nodes, revoker, gone), person, media, role, cap) <==>
      StillCovered(nodes, revoker, gone, person, media, role, cap)
  {
    var after := PullAll(nodes, revoker, gone);
    forall i | 0 <= i < |nodes|
      ensures NodeCovers(after[i], person, media, role, cap) <==>
        NodeStillCovers(nodes[i], revoker, gone, person, media, role, cap)
    {
      PulledNodeCovers(nodes[i], revoker, gone, person, media, role, cap);
    }
  }

  lemma {:induction false} FindNodePulled(nodes: seq<Node>, person: PersonId, gone: set<GrantId>, id: NodeId)
    ensures FindNode(PullAll(nodes, person, gone), id) == FindNode(nodes, id)
  {
    if nodes == [] {
    } else {
      assert PullAll(nodes, person, gone)[1..] == PullAll(nodes[1..], person, gone);
      FindNodePulled(nodes[1..], person, gone, id);
    }
  }

  /** An endpoint free of grants, or covered by one that is not revoked. */
  ghost predicate EndStays(cat: Catalog, revoker: PersonId, gone: set<GrantId>, cap: CapId, media: Media, role: Role) {
    Sharer(cat, cap).Some? ==> StillCovered(cat.nodes, revoker, gone, Sharer(cat, cap).value, media, role, cap)
  }

  lemma EndPulled(cat: Catalog, revoker: PersonId, gone: set<GrantId>, cap: CapId, media: Media, role: Role)
    ensures CheckEndpoint(cat.(nodes := PullAll(cat.nodes, revoker, gone)), cap, media, role).None? <==>
      EndStays(cat, revoker, gone, cap, media, role)
  {
    var after := cat.(nodes := PullAll(cat.nodes, revoker, gone));
    var found := FindCapability(cat.capabilities, cap);
    if found.Some? {
      FindNodePulled(cat.nodes, revoker, gone, found.value.node);
      assert Sharer(after, cap) == Sharer(cat, cap);
    }
    if Sharer(cat, cap).Some? {
      PulledCovers(cat.nodes, revoker, gone, Sharer(cat, cap).value, media, role, cap);
    }
  }

  lemma {:induction false} KeptRoutes(routes: seq<Route>, staying: set<Route>, r: Route)
    ensures multiset(KeepRoutes(routes, staying))[r] == if r in staying then multiset(routes)[r] else 0
  {
    if routes == [] {
    } else {
      var init, last := routes[..|routes| - 1], routes[|routes| - 1];
      KeptRoutes(init, staying, r);
      assert routes == init + [last];
    }
  }

  /** The media a route is checked for: its source's, or any if the source is not known. */
  ghost predicate MediaOf(cat: Catalog, from: CapId, media: Media) {
    && (forall k: nat :: FirstEndpoint(cat.capabilities, from, k) ==> media == cat.capabilities[k].media)
    && ((forall c :: c in cat.capabilities ==> c.id != from) ==> media == Generic)
  }

  lemma MediaIsRouteMedia(cat: Catalog, from: CapId, media: Media)
    requires MediaOf(cat, from, media)
    ensures media == RouteMedia(cat, from)
  {
    var k := FindCapabilityFirst(cat.capabilities, from);
  }

  /** Revocation is exact: a route survives if and only if a room wired it, or each of its
      ends was free of grants or is covered by a grant that was not revoked. */
  lemma RevokeExact(cat: Catalog, roomWired: set<Route>, node: NodeId, id: GrantId, r: Route, media: Media)
    requires MediaOf(cat, r.from, media)
    requires var at := FindNode(cat.nodes, node); at.Some? && cat.nodes[at.value].relationship.Shared?
    ensures var at := FindNode(cat.nodes, node).value;
            var person, gone := cat.nodes[at].relationship.person, Revoked(cat.nodes, at, id);
            var ends :=
              EndStays(cat, person, gone, r.from, media, Provide) && EndStays(cat, person, gone, r.to, media, Consume);
            var stays := r in roomWired || ends;
            multiset(RevokeGrant(cat, roomWired, node, id).routes)[r] == if stays then multiset(cat.routes)[r] else 0
  {
    var at := FindNode(cat.nodes, node).value;
    var person, gone := cat.nodes[at].relationship.person, Revoked(cat.nodes, at, id);
    MediaIsRouteMedia(cat, r.from, media);
    var pulled := cat.(nodes := PullAll(cat.nodes, person, gone));
    EndPulled(cat, person, gone, r.from, media, Provide);
    EndPulled(cat, person, gone, r.to, media, Consume);
    KeptRoutes(cat.routes, Staying(pulled, roomWired), r);
    assert r in cat.routes <==> r in multiset(cat.routes);
  }

  // Revoking undoes granting

  lemma {:induction false} KeepsUngone(grants: seq<Grant>, gone: set<GrantId>)
    requires forall g :: g in grants ==> g.id !in gone
    ensures KeepGrants(grants, gone) == grants
  {
    if grants == [] {
    } else {
      assert grants == grants[..|grants| - 1] + [grants[|grants| - 1]];
      KeepsUngone(grants[..|grants| - 1], gone);
    }
  }

  lemma {:induction false} FindAppended(grants: seq<Grant>, g: Grant)
    requires forall h :: h in grants ==> h.id != g.id
    ensures FindGrant(grants + [g], g.id) == Some(g)
  {
    if grants == [] {
    } else {
      assert (grants + [g])[1..] == grants[1..] + [g];
      FindAppended(grants[1..], g);
    }
  }

  /** Nobody's grant of this person bears this id. */
  ghost predicate FreshId(nodes: seq<Node>, person: PersonId, id: GrantId) {
    forall i, g :: 0 <= i < |nodes| && HeldBy(nodes[i], person) && g in nodes[i].relationship.grants ==> g.id != id
  }

  ghost predicate OnlyScreens(nodes: seq<Node>, person: PersonId, key: nat, id: GrantId) {
    forall i, g :: 0 <= i < |nodes| && HeldBy(nodes[i], person) && g in nodes[i].relationship.grants ==>
      ScreenKey(g.media, g.role, g.capability) == Some(key) ==> g.id == id
  }

  lemma {:induction false} ScreenIdsOnly(nodes: seq<Node>, person: PersonId, key: nat, id: GrantId)
    requires OnlyScreens(nodes, person, key, id)
    ensures AllScreenIds(nodes, person, key) <= {id}
  {
    if nodes == [] {
    } else {
      ScreenIdsOnly(nodes[..|nodes| - 1], person, key, id);
      assert ScreenIds(nodes[|nodes| - 1], person, key) <= {id};
    }
  }

  /** A person the catalog asks for has no grant yet of the endpoint, nor, of a screen, any
      grant of its machine's screens. */
  lemma AskedHasNone(cat: Catalog, cap: CapId, media: Media, role: Role)
    requires role != Both && CheckEndpoint(cat, cap, media, role).Some?
    ensures var r := CheckEndpoint(cat, cap, media, role).value;
            var grant := Recorded(r.person, RequestToGrant(r));
            && !PersonHas(cat.nodes, r.person, grant)
            && (ScreenKey(grant.media, grant.role, grant.capability).Some? ==>
                  var key := ScreenKey(grant.media, grant.role, grant.capability).value;
                  forall id :: OnlyScreens(cat.nodes, r.person, key, id))
  {
    var r := CheckEndpoint(cat, cap, media, role).value;
    var grant := Recorded(r.person, RequestToGrant(r));
    forall i, g | 0 <= i < |cat.nodes| && HeldBy(cat.nodes[i], r.person) && g in cat.nodes[i].relationship.grants
      ensures !SameScope(g, grant)
      ensures ScreenKey(grant.media, grant.role, grant.capability).Some? ==>
        ScreenKey(g.media, g.role, g.capability) != ScreenKey(grant.media, grant.role, grant.capability)
    {
      assert !NodeCovers(cat.nodes[i], r.person, media, role, cap);
      assert !Permits(g, media, role, cap);
    }
  }

  /** A scoped id is made from its grant's contents, as it is recorded. */
  ghost predicate IdsTellContents(nodes: seq<Node>) {
    forall i, g :: 0 <= i < |nodes| && nodes[i].relationship.Shared? && g in nodes[i].relationship.grants ==> IdTells(g)
  }

  predicate IdTells(g: Grant) {
    g.id.Scoped? ==>
      && g.id.media == g.media && g.id.role == g.role
      && g.id.capability == Durable(g.media, g.role, g.capability)
  }

  lemma AskedIsFresh(cat: Catalog, cap: CapId, media: Media, role: Role)
    requires role != Both && CheckEndpoint(cat, cap, media, role).Some? && IdsTellContents(cat.nodes)
    ensures var r := CheckEndpoint(cat, cap, media, role).value; FreshId(cat.nodes, r.person, RequestToGrant(r).id)
  {
    var r := CheckEndpoint(cat, cap, media, role).value;
    forall i, g | 0 <= i < |cat.nodes| && HeldBy(cat.nodes[i], r.person) && g in cat.nodes[i].relationship.grants
      ensures g.id != RequestToGrant(r).id
    {
      assert IdTells(g) && !NodeCovers(cat.nodes[i], r.person, media, role, cap);
      assert !Permits(g, media, role, cap);
    }
  }

  /** Revoking the grant a request brought restores the person's grants exactly: a request is
      made only when no older record could be swept along. */
  lemma RevokeUndoesGrant(cat: Catalog, roomWired: set<Route>, cap: CapId, media: Media, role: Role)
    requires role != Both && CheckEndpoint(cat, cap, media, role).Some? && IdsTellContents(cat.nodes)
    ensures var r := CheckEndpoint(cat, cap, media, role).value;
            RevokeGrant(GrantTo(cat, r.node, RequestToGrant(r)), roomWired, r.node,
              RequestToGrant(r).id).nodes == cat.nodes
  {
    var r := CheckEndpoint(cat, cap, media, role).value;
    var grant, at := RequestToGrant(r), FindNode(cat.nodes, r.node).value;
    assert Recorded(r.person, grant) == grant;
    AskedHasNone(cat, cap, media, role);
    AskedIsFresh(cat, cap, media, role);
    var granted := GrantTo(cat, r.node, grant);
    var before := cat.nodes[at].relationship.grants;
    assert granted.nodes[at].relationship.grants == before + [grant];
    GrantToExtends(cat, r.node, grant);
    FindNodeExtends(cat.nodes, granted.nodes, r.node);
    FindAppended(before, grant);
    var key := SelectedKey(granted.nodes[at], grant.id);
    if key.Some? {
      assert OnlyScreens(cat.nodes, r.person, key.value, grant.id);
      ScreenIdsOnly(granted.nodes, r.person, key.value, grant.id);
    }
    assert Revoked(granted.nodes, at, grant.id) == {grant.id};
    PulledBack(cat.nodes, at, grant);
  }

  lemma PulledBack(nodes: seq<Node>, at: nat, grant: Grant)
    requires at < |nodes| && nodes[at].relationship.Shared? && FreshId(nodes, nodes[at].relationship.person, grant.id)
    ensures PullAll(nodes[at := AddGrant(nodes[at], grant)], nodes[at].relationship.person, {grant.id}) == nodes
  {
    var person := nodes[at].relationship.person;
    forall i | 0 <= i < |nodes| && HeldBy(nodes[i], person)
      ensures KeepGrants(nodes[i].relationship.grants, {grant.id}) == nodes[i].relationship.grants
    {
      KeepsUngone(nodes[i].relationship.grants, {grant.id});
    }
    var grants := nodes[at].relationship.grants;
    assert (grants + [grant])[..|grants|] == grants;
  }

  // The store's verbs

  datatype PendingShare = PendingShare(from: CapId, to: CapId, requests: seq<Request>)

  /** approvePendingShare: the grants, then the route if it now goes through. */
  function Approve(cat: Catalog, p: PendingShare): Catalog {
    var granted := GrantAll(cat, p.requests);
    if ProposeRoute(granted, p.from, p.to).Allowed? && Route(p.from, p.to) !in granted.routes
    then granted.(routes := granted.routes + [Route(p.from, p.to)])
    else granted
  }

  /** Approving what a connection required wires it, once, if it may be wired at all; and no
      approval wires one that may not be. No other route comes or goes. */
  lemma ApprovalWires(cat: Catalog, p: PendingShare)
    ensures MayWire(cat, p.from, p.to) && p.requests == RequiredGrants(cat, p.from, p.to) ==>
      Approve(cat, p).routes == cat.routes + if Route(p.from, p.to) in cat.routes then [] else [Route(p.from, p.to)]
    ensures !MayWire(cat, p.from, p.to) ==> Approve(cat, p).routes == cat.routes
    ensures Approve(cat, p).nodes == GrantAll(cat, p.requests).nodes
  {
    ValidIff(cat, p.from, p.to);
    GrantAllExtends(cat, p.requests);
    GrantsMonotone(cat, GrantAll(cat, p.requests), p.from, p.to);
    if MayWire(cat, p.from, p.to) {
      ApprovalSuffices(cat, p.from, p.to);
    }
  }

  class Shares {
    var nodes: seq<Node>
    var capabilities: seq<Capability>
    var routes: seq<Route>
    var roomWired: set<Route>
    var pending: Option<PendingShare>

    ghost function View(): Catalog
      reads this
    {
      Catalog(nodes, capabilities, routes)
    }

    constructor (nodes: seq<Node>, capabilities: seq<Capability>)
      ensures View() == Catalog(nodes, capabilities, []) && roomWired == {} && pending.None?
    {
      this.nodes, this.capabilities, routes, roomWired, pending := nodes, capabilities, [], {}, None;
    }

    method AddRoute(from: CapId, to: CapId)
      modifies this`routes
      ensures routes == old(routes) + if Route(from, to) in old(routes) then [] else [Route(from, to)]
    {
      if Route(from, to) in routes {
        return;
      }
      routes := routes + [Route(from, to)];
    }

    method Connect(from: CapId, to: CapId) returns (up: bool)
      modifies this`routes, this`pending
      ensures up <==> ProposeRoute(old(View()), from, to).Allowed?
      ensures routes == old(routes) + if up && Route(from, to) !in old(routes) then [Route(from, to)] else []
      ensures pending == if ProposeRoute(old(View()), from, to).Denied?
        then Some(PendingShare(from, to, RequiredGrants(old(View()), from, to))) else old(pending)
    {
      var proposed := ProposeRoute(Catalog(nodes, capabilities, routes), from, to);
      match proposed
      case Allowed(_, _) =>
        AddRoute(from, to);
        return true;
      case Denied(requests) =>
        pending := Some(PendingShare(from, to, requests));
        return false;
      case Refused(_) =>
        return false;
    }

    method GrantOn(id: NodeId, grant: Grant)
      modifies this`nodes
      ensures View() == GrantTo(old(View()), id, grant)
    {
      var at := FindNode(nodes, id);
      if at.None? || !nodes[at.value].relationship.Shared? {
        return;
      }
      var person := nodes[at.value].relationship.person;
      var durable := grant.(capability := Durable(grant.media, grant.role, grant.capability));
      if ScreenKey(durable.media, durable.role, durable.capability).Some? {
        durable := durable.(id := Scoped(person, durable.media, durable.role, durable.capability));
      }
      if !PersonHas(nodes, person, durable) {
        nodes := nodes[at.value := AddGrant(nodes[at.value], durable)];
      }
    }

    method ApprovePendingShare()
      modifies this
      ensures pending.None?
      ensures View() == if old(pending).None? then old(View()) else Approve(old(View()), old(pending).value)
    {
      if pending.None? {
        return;
      }
      var p := pending.value;
      ghost var before := View();
      var i: nat := 0;
      assert p.requests[0..] == p.requests;
      while i < |p.requests|
        invariant i <= |p.requests| && routes == before.routes
        invariant GrantAll(before, p.requests) == GrantAll(View(), p.requests[i..])
      {
        assert p.requests[i..][1..] == p.requests[i + 1..];
        GrantOn(p.requests[i].node, RequestToGrant(p.requests[i]));
        i := i + 1;
      }
      var proposed := ProposeRoute(Catalog(nodes, capabilities, routes), p.from, p.to);
      if proposed.Allowed? {
        AddRoute(p.from, p.to);
      }
      pending := None;
    }

    method Revoke(id: NodeId, grantId: GrantId)
      modifies this`nodes, this`routes
      ensures View() == RevokeGrant(old(View()), roomWired, id, grantId)
    {
      var at := FindNode(nodes, id);
      if at.None? || !nodes[at.value].relationship.Shared? {
        return;
      }
      var person := nodes[at.value].relationship.person;
      var revoked := RevokedIds(at.value, grantId);
      var i: nat := 0;
      while i < |nodes|
        invariant i <= |nodes| == |old(nodes)| && routes == old(routes) && capabilities == old(capabilities)
        invariant forall j :: 0 <= j < |nodes| ==>
          nodes[j] == if j < i then Pull(old(nodes)[j], person, revoked) else old(nodes)[j]
      {
        if HeldBy(nodes[i], person) {
          nodes := nodes[i := Pull(nodes[i], person, revoked)];
        }
        i := i + 1;
      }
      assert nodes == PullAll(old(nodes), person, revoked);
      Reauthorize();
    }

    /** The revoked ids, gathered from every node of the person. */
    method RevokedIds(at: nat, id: GrantId) returns (revoked: set<GrantId>)
      requires at < |nodes| && nodes[at].relationship.Shared?
      ensures revoked == Revoked(nodes, at, id)
    {
      var person, key := nodes[at].relationship.person, SelectedKey(nodes[at], id);
      revoked := {id};
      if key.None? {
        return;
      }
      var i: nat := 0;
      while i < |nodes|
        invariant i <= |nodes| && revoked == {id} + AllScreenIds(nodes[..i], person, key.value)
      {
        assert nodes[..i + 1][..i] == nodes[..i];
        revoked := revoked + ScreenIds(nodes[i], person, key.value);
        i := i + 1;
      }
      assert nodes[..i] == nodes;
    }

    method Reauthorize()
      modifies this`routes
      ensures View() == Reauthorized(old(View()), roomWired)
    {
      var cat := Catalog(nodes, capabilities, routes);
      var kept: seq<Route> := [];
      var i: nat := 0;
      while i < |cat.routes|
        invariant i <= |cat.routes| && routes == cat.routes
        invariant kept == KeepRoutes(cat.routes[..i], Staying(cat, roomWired))
      {
        assert cat.routes[..i + 1][..i] == cat.routes[..i];
        if RouteStays(cat, roomWired, cat.routes[i]) {
          kept := kept + [cat.routes[i]];
        }
        i := i + 1;
      }
      assert cat.routes[..i] == cat.routes;
      routes := kept;
    }
  }
}
