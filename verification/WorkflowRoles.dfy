/** The permissions and transitions a workflow state grants: what is configured for roles is
    folded onto the users those roles are assigned to, in whatever order the maps are walked. */
module WorkflowRoles {
  import opened Wrappers
  import Listing

  const EVERYBODY := "---EVERYBODY---"

  /** A permission mask, as the set of its bits: | is union, & is intersection. */
  type Mask = set<nat>

  datatype Transition = Transition(name: string)

  /** A property of the item; those of type USER assign a role, called like the property, to a user. */
  datatype Property = Property(isUser: bool, value: Option<string>)

  type Roles = map<string, string>

  ghost predicate Walks(order: seq<string>, keys: set<string>) {
    Listing.Distinct(order) && forall k :: k in order <==> k in keys
  }

  /** The user is the value of the property of type USER that is called like the role. */
  predicate Performs(item: map<string, Property>, role: string, uid: string) {
    role in item && item[role].isUser && item[role].value == Some(uid)
  }

  predicate Holds(roles: Roles, role: string, uid: string) {
    role in roles && roles[role] == uid
  }

  // Folding in the order of a walk.

  /** The transitions that one role offers a user. */
  function OfferedBy(next: map<string, seq<Transition>>, roles: Roles, uid: string, r: string): seq<Transition> {
    if r in next && (if r in roles then roles[r] == uid else r == EVERYBODY == uid) then next[r] else []
  }

  function Offered(next: map<string, seq<Transition>>, roles: Roles, uid: string, order: seq<string>): seq<Transition> {
    if order == [] then []
    else Offered(next, roles, uid, order[..|order| - 1]) + OfferedBy(next, roles, uid, order[|order| - 1])
  }

  lemma OfferedNext(next: map<string, seq<Transition>>, roles: Roles, uid: string, order: seq<string>, i: nat)
    requires i < |order|
    ensures Offered(next, roles, uid, order[..i + 1]) == Offered(next, roles, uid, order[..i]) + OfferedBy(next, roles, uid, order[i])
  {
    assert order[..i + 1][..i] == order[..i];
  }

  function ItemMask(masks: map<string, Mask>, roles: Roles, uid: string, order: seq<string>): Option<Mask> {
    if order == [] then None
    else
      var r, before := order[|order| - 1], ItemMask(masks, roles, uid, order[..|order| - 1]);
      if Holds(roles, r, uid) && r in masks then Some(if before.Some? then before.value + masks[r] else masks[r]) else before
  }

  function PropertyMask(masks: map<string, Mask>, roles: Roles, uid: string, order: seq<string>): Option<Mask> {
    if order == [] then None
    else
      var r, before := order[|order| - 1], PropertyMask(masks, roles, uid, order[..|order| - 1]);
      if Holds(roles, r, uid) && r in masks then Some(if before.Some? then before.value * masks[r] else masks[r]) else before
  }

  function Get<V>(m: map<string, V>, k: string): Option<V> {
    if k in m then Some(m[k]) else None
  }

  function MaskOf(m: map<string, map<string, Mask>>, uid: string, p: string): Option<Mask> {
    if uid in m && p in m[uid] then Some(m[uid][p]) else None
  }

  function TransitionsOf(m: map<string, seq<Transition>>, uid: string): seq<Transition> {
    if uid in m then m[uid] else []
  }

  /** All the transitions of the listed roles. */
  function AllOf(next: map<string, seq<Transition>>, listed: seq<string>): seq<Transition>
    requires forall r | r in listed :: r in next
  {
    if listed == [] then [] else AllOf(next, listed[..|listed| - 1]) + next[listed[|listed| - 1]]
  }

  /** A list of the roles the user performs, or of EVERYBODY if that is asked for and nobody's role. */
  ghost predicate IsMine(item: map<string, Property>, next: map<string, seq<Transition>>, uid: string, mine: seq<string>) {
    && Listing.Distinct(mine)
    && forall r :: r in mine <==>
         r in next && (Performs(item, r, uid) || (r == EVERYBODY == uid && forall u :: !Performs(item, EVERYBODY, u)))
  }

  /** A user has a permission on the item exactly if some role of the user has it. */
  ghost predicate ItemGrants(item: map<string, Property>, items: map<string, Mask>, granted: map<string, Mask>) {
    && (forall uid :: uid in granted <==> exists r :: r in items && Performs(item, r, uid))
    && (forall uid, bit | uid in granted :: bit in granted[uid] <==> exists r :: r in items && bit in items[r] && Performs(item, r, uid))
  }

  /** And on a property if every role of the user that is configured for the property has it. */
  ghost predicate PropertyGrants(item: map<string, Property>, props: map<string, map<string, Mask>>, granted: map<string, map<string, Mask>>) {
    && (forall uid, p :: MaskOf(granted, uid, p).Some? <==> p in props && exists r :: r in props[p] && Performs(item, r, uid))
    && (forall uid, p, bit | MaskOf(granted, uid, p).Some? ::
          bit in MaskOf(granted, uid, p).value <==> forall r | r in props[p] && Performs(item, r, uid) :: bit in props[p][r])
  }

  /** The transitions kept for a user are those of the user's roles, whichever way these are listed. */
  ghost predicate TransitionOffers(item: map<string, Property>, next: map<string, seq<Transition>>, kept: map<string, seq<Transition>>) {
    forall uid, mine | IsMine(item, next, uid, mine) :: multiset(TransitionsOf(kept, uid)) == multiset(AllOf(next, mine))
  }

  /** What is configured: the transitions, the item permissions and the property permissions of roles. */
  datatype Configuration = Configuration(
    next: map<string, seq<Transition>>,
    items: map<string, Mask>,
    props: map<string, map<string, Mask>>)

  class WorkflowState {
    const item: map<string, Property>
    ghost const config: Configuration
    const roles: Roles
    var nextTransitions: map<string, seq<Transition>>
    var itemPermissions: map<string, Mask>
    var propertyPermissions: map<string, map<string, Mask>>

    ghost predicate Grants()
      reads this
    {
      ItemGrants(item, config.items, itemPermissions) && PropertyGrants(item, config.props, propertyPermissions)
    }

    ghost predicate Offers()
      reads this
    {
      TransitionOffers(item, config.next, nextTransitions)
    }

    /** The constructor: adjustUserRoles over an item. The orders are those in which the maps
        happen to be walked. */
    constructor (properties: map<string, Property>, next: map<string, seq<Transition>>, items: map<string, Mask>,
                 props: map<string, map<string, Mask>>, order: seq<string>, nextOrder: seq<string>,
                 itemOrder: seq<string>, propOrder: seq<string>, roleOrder: map<string, seq<string>>)
      requires Walks(order, properties.Keys)
      requires Walks(nextOrder, next.Keys) && Walks(itemOrder, items.Keys) && Walks(propOrder, props.Keys)
      requires forall p | p in props :: p in roleOrder && Walks(roleOrder[p], props[p].Keys)
      ensures item == properties && config == Configuration(next, items, props)
      ensures Grants() && Offers()
    {
      item := properties;
      config := Configuration(next, items, props);
      var who := AssignRoles(properties, order);
      roles := who;
      new;
      nextTransitions := FoldTransitions(next, nextOrder);
      itemPermissions := FoldItemMasks(items, itemOrder);
      propertyPermissions := FoldPropertyMasks(props, propOrder, roleOrder);
      hide ItemMask, PropertyMask, Offered, Performs, Holds, MaskOf, Get, TransitionsOf;
      ItemsGranted(item, roles, items, itemOrder, itemPermissions);
      PropertiesGranted(item, roles, props, roleOrder, propertyPermissions);
      MineOffered(item, roles, next, nextOrder, nextTransitions);
    }

    /** The loop over the properties of the item that tells who holds which role. */
    static method AssignRoles(item: map<string, Property>, order: seq<string>) returns (m: Roles)
      requires Walks(order, item.Keys)
      ensures forall r, uid :: Holds(m, r, uid) <==> Performs(item, r, uid)
    {
      m := map[];
      for i := 0 to |order|
        invariant forall r, uid :: Holds(m, r, uid) <==> r in order[..i] && Performs(item, r, uid)
      {
        var p := order[i];
        assert order[..i + 1] == order[..i] + [p] && p !in order[..i];
        ghost var before := m;
        if item[p].isUser {
          if item[p].value.Some? {
            m := m[p := item[p].value.value];
          }
        }
        forall r, uid ensures Holds(m, r, uid) <==> r in order[..i + 1] && Performs(item, r, uid) {
          assert r != p ==> (Holds(m, r, uid) <==> Holds(before, r, uid));
          assert r == p ==> !Holds(before, r, uid);
        }
      }
      assert order[..|order|] == order;
    }

    method FoldTransitions(next: map<string, seq<Transition>>, order: seq<string>) returns (m: map<string, seq<Transition>>)
      requires forall r | r in order :: r in next
      ensures forall uid :: TransitionsOf(m, uid) == Offered(next, roles, uid, order)
    {
      m := map[];
      assert order[..0] == [];
      for i := 0 to |order|
        invariant forall uid :: TransitionsOf(m, uid) == Offered(next, roles, uid, order[..i])
      {
        hide Offered;
        var r := order[i];
        ghost var before := m;
        if r in roles {
          m := m[roles[r] := TransitionsOf(m, roles[r]) + next[r]];
        } else if r == EVERYBODY {
          m := m[EVERYBODY := TransitionsOf(m, EVERYBODY) + next[r]];
        }
        forall uid ensures TransitionsOf(m, uid) == Offered(next, roles, uid, order[..i + 1]) {
          OfferedNext(next, roles, uid, order, i);
          assert TransitionsOf(m, uid) == TransitionsOf(before, uid) + OfferedBy(next, roles, uid, r);
        }
      }
      assert order[..|order|] == order;
    }

    method FoldItemMasks(masks: map<string, Mask>, order: seq<string>) returns (m: map<string, Mask>)
      requires forall r | r in order :: r in masks
      ensures forall uid :: Get(m, uid) == ItemMask(masks, roles, uid, order)
    {
      m := map[];
      for i := 0 to |order|
        invariant forall uid :: Get(m, uid) == ItemMask(masks, roles, uid, order[..i])
      {
        var r := order[i];
        assert order[..i + 1][..i] == order[..i];
        if r in roles {
          var uid := roles[r];
          m := m[uid := if uid in m then m[uid] + masks[r] else masks[r]];
        }
      }
      assert order[..|order|] == order;
    }

    /** The inner loop: the roles of one property. */
    method FoldRoles(p: string, masks: map<string, Mask>, order: seq<string>, m: map<string, map<string, Mask>>) returns (r: map<string, map<string, Mask>>)
      requires forall x | x in order :: x in masks
      requires forall uid :: MaskOf(m, uid, p) == None
      ensures forall uid :: MaskOf(r, uid, p) == PropertyMask(masks, roles, uid, order)
      ensures forall uid, q | q != p :: MaskOf(r, uid, q) == MaskOf(m, uid, q)
    {
      r := m;
      for i := 0 to |order|
        invariant forall uid :: MaskOf(r, uid, p) == PropertyMask(masks, roles, uid, order[..i])
        invariant forall uid, q | q != p :: MaskOf(r, uid, q) == MaskOf(m, uid, q)
      {
        var role := order[i];
        assert order[..i + 1][..i] == order[..i];
        if role in roles {
          var uid := roles[role];
          var own := if uid in r then r[uid] else map[];
          r := r[uid := own[p := if p in own then own[p] * masks[role] else masks[role]]];
        }
      }
      assert order[..|order|] == order;
    }

    method FoldPropertyMasks(props: map<string, map<string, Mask>>, order: seq<string>, roleOrder: map<string, seq<string>>) returns (m: map<string, map<string, Mask>>)
      requires Walks(order, props.Keys)
      requires forall p | p in props :: p in roleOrder && Walks(roleOrder[p], props[p].Keys)
      ensures forall uid, p | p in props :: MaskOf(m, uid, p) == PropertyMask(props[p], roles, uid, roleOrder[p])
      ensures forall uid, p | p !in props :: MaskOf(m, uid, p) == None
    {
      m := map[];
      for i := 0 to |order|
        invariant forall uid, p | p in order[..i] && p in props :: MaskOf(m, uid, p) == PropertyMask(props[p], roles, uid, roleOrder[p])
        invariant forall uid, p | p !in order[..i] :: MaskOf(m, uid, p) == None
      {
        hide PropertyMask;
        var p := order[i];
        assert p in order && p !in order[..i] && order[..i + 1] == order[..i] + [p];
        m := FoldRoles(p, props[p], roleOrder[p], m);
      }
      assert order[..|order|] == order;
    }

    /** getNextTransitions. */
    method GetNextTransitions(uid: string) returns (r: seq<Transition>)
      ensures r == TransitionsOf(nextTransitions, EVERYBODY) + TransitionsOf(nextTransitions, uid)
      ensures Offers() ==> forall all, mine | IsMine(item, config.next, EVERYBODY, all) && IsMine(item, config.next, uid, mine) ::
                multiset(r) == multiset(AllOf(config.next, all)) + multiset(AllOf(config.next, mine))
    {
      r := [];
      if EVERYBODY in nextTransitions {
        r := nextTransitions[EVERYBODY];
      }
      if uid in nextTransitions {
        r := r + nextTransitions[uid];
      }
    }

    /** checkItemPermission: one of the bits asked for will do, and where nobody has a role
        everything is allowed. */
    method CheckItemPermission(uid: string, permission: Mask) returns (ok: bool)
      requires Grants()
      ensures ok <==>
              || (forall r, u | r in config.items :: !Performs(item, r, u))
              || exists r, bit :: r in config.items && bit in config.items[r] && bit in permission && Performs(item, r, uid)
    {
      if |itemPermissions| == 0 {
        forall r, u | r in config.items ensures !Performs(item, r, u) {
          assert u !in itemPermissions;
        }
        return true;
      }
      ghost var other :| other in itemPermissions;
      if uid in itemPermissions {
        if itemPermissions[uid] * permission != {} {
          ghost var bit :| bit in itemPermissions[uid] * permission;
          return true;
        }
        assert forall bit | bit in permission :: bit !in itemPermissions[uid] by {
          assert forall bit | bit in permission && bit in itemPermissions[uid] :: bit in itemPermissions[uid] * permission;
        }
      }
      return false;
    }

    /** checkPropertyPermission: every role of the user has to have one and the same bit asked for,
        and a user without a role for the property is allowed everything. */
    method CheckPropertyPermission(property: string, uid: string, permission: Mask) returns (ok: bool)
      requires Grants()
      ensures ok <==>
              || property !in config.props
              || (forall r | r in config.props[property] :: !Performs(item, r, uid))
              || exists bit :: bit in permission && forall r | r in config.props[property] && Performs(item, r, uid) :: bit in config.props[property][r]
    {
      if uid in propertyPermissions {
        if property in propertyPermissions[uid] {
          ghost var m := MaskOf(propertyPermissions, uid, property).value;
          ok := propertyPermissions[uid][property] * permission != {};
          if ok {
            ghost var bit :| bit in m * permission;
          } else {
            assert forall bit | bit in permission :: bit !in m by {
              assert forall bit | bit in permission && bit in m :: bit in m * permission;
            }
          }
          return;
        }
      }
      assert MaskOf(propertyPermissions, uid, property).None?;
      return true;
    }
  }

  // The order does not matter.

  /** A role of the user has a mask. */
  ghost predicate HasRole(masks: map<string, Mask>, roles: Roles, uid: string, keys: seq<string>) {
    exists r :: r in keys && r in masks && Holds(roles, r, uid)
  }

  ghost predicate SomeRoleHas(masks: map<string, Mask>, roles: Roles, uid: string, keys: seq<string>, bit: nat) {
    exists r :: r in keys && r in masks && Holds(roles, r, uid) && bit in masks[r]
  }

  ghost predicate EveryRoleHas(masks: map<string, Mask>, roles: Roles, uid: string, keys: seq<string>, bit: nat) {
    forall r | r in keys && r in masks && Holds(roles, r, uid) :: bit in masks[r]
  }

  /** The item mask is the bitwise OR: it has a bit exactly if a role of the user has it. */
  lemma {:induction false} ItemMaskIsOr(masks: map<string, Mask>, roles: Roles, uid: string, order: seq<string>, bit: nat)
    ensures var m := ItemMask(masks, roles, uid, order);
            && (m.Some? <==> HasRole(masks, roles, uid, order))
            && (m.Some? ==> (bit in m.value <==> SomeRoleHas(masks, roles, uid, order, bit)))
  {
    if order != [] {
      var front, r := order[..|order| - 1], order[|order| - 1];
      assert order == front + [r];
      assert forall x :: x in order <==> x in front || x == r;
      ItemMaskIsOr(masks, roles, uid, front, bit);
    }
  }

  /** A property mask is the bitwise AND: it has a bit exactly if every role of the user has it. */
  lemma {:induction false} PropertyMaskIsAnd(masks: map<string, Mask>, roles: Roles, uid: string, order: seq<string>, bit: nat)
    ensures var m := PropertyMask(masks, roles, uid, order);
            && (m.Some? <==> HasRole(masks, roles, uid, order))
            && (m.Some? ==> (bit in m.value <==> EveryRoleHas(masks, roles, uid, order, bit)))
  {
    if order != [] {
      var front, r := order[..|order| - 1], order[|order| - 1];
      assert order == front + [r];
      assert forall x :: x in order <==> x in front || x == r;
      PropertyMaskIsAnd(masks, roles, uid, front, bit);
    }
  }

  /** The masks are the same for every order in which the maps are walked. */
  lemma MasksForAnyOrder(masks: map<string, Mask>, roles: Roles, uid: string, one: seq<string>, other: seq<string>)
    requires Walks(one, masks.Keys) && Walks(other, masks.Keys)
    ensures ItemMask(masks, roles, uid, one) == ItemMask(masks, roles, uid, other)
    ensures PropertyMask(masks, roles, uid, one) == PropertyMask(masks, roles, uid, other)
  {
    hide ItemMask, PropertyMask;
    assert forall r :: r in one <==> r in other;
    var a, b := ItemMask(masks, roles, uid, one), ItemMask(masks, roles, uid, other);
    var c, d := PropertyMask(masks, roles, uid, one), PropertyMask(masks, roles, uid, other);
    forall bit: nat
      ensures a.Some? <==> b.Some?
      ensures c.Some? <==> d.Some?
      ensures a.Some? ==> (bit in a.value <==> bit in b.value)
      ensures c.Some? ==> (bit in c.value <==> bit in d.value) {
      ItemMaskIsOr(masks, roles, uid, one, bit);
      ItemMaskIsOr(masks, roles, uid, other, bit);
      PropertyMaskIsAnd(masks, roles, uid, one, bit);
      PropertyMaskIsAnd(masks, roles, uid, other, bit);
    }
    ItemMaskIsOr(masks, roles, uid, one, 0);
    ItemMaskIsOr(masks, roles, uid, other, 0);
    PropertyMaskIsAnd(masks, roles, uid, one, 0);
    PropertyMaskIsAnd(masks, roles, uid, other, 0);
    assert a.Some? ==> a.value == b.value;
    assert c.Some? ==> c.value == d.value;
  }

  /** The transitions a role brings to a user, or EVERYBODY to all. */
  function Brings(next: map<string, seq<Transition>>, roles: Roles, uid: string, r: string): multiset<Transition> {
    if r in next && (if r in roles then roles[r] == uid else r == EVERYBODY == uid) then multiset(next[r]) else multiset{}
  }

  function SumOver(next: map<string, seq<Transition>>, roles: Roles, uid: string, order: seq<string>): multiset<Transition> {
    if order == [] then multiset{} else SumOver(next, roles, uid, order[..|order| - 1]) + Brings(next, roles, uid, order[|order| - 1])
  }

  lemma {:induction false} SumWithout(next: map<string, seq<Transition>>, roles: Roles, uid: string, order: seq<string>, i: nat)
    requires i < |order|
    ensures SumOver(next, roles, uid, order) == SumOver(next, roles, uid, order[..i] + order[i + 1..]) + Brings(next, roles, uid, order[i])
  {
    hide Brings;
    if i == |order| - 1 {
      assert order[..i] + order[i + 1..] == order[..i];
    } else {
      var front, last := order[..|order| - 1], order[|order| - 1];
      var short := front[..i] + front[i + 1..];
      SumWithout(next, roles, uid, front, i);
      assert front[..i] == order[..i] && front[i + 1..] + [last] == order[i + 1..];
      Listing.Regroup(order[..i], front[i + 1..], [last]);
      SumSnoc(next, roles, uid, short, last);
    }
  }

  lemma SumSnoc(next: map<string, seq<Transition>>, roles: Roles, uid: string, order: seq<string>, last: string)
    ensures SumOver(next, roles, uid, order + [last]) == SumOver(next, roles, uid, order) + Brings(next, roles, uid, last)
  {
    hide Brings;
    assert (order + [last])[..|order|] == order;
  }

  lemma {:induction false} SumForAnyOrder(next: map<string, seq<Transition>>, roles: Roles, uid: string, one: seq<string>, other: seq<string>)
    requires multiset(one) == multiset(other)
    ensures SumOver(next, roles, uid, one) == SumOver(next, roles, uid, other)
  {
    hide Brings;
    Listing.SameElements(one, other);
    if one != [] {
      var k := |one| - 1;
      var last, front := one[k], one[..k];
      assert last in one;
      var i :| 0 <= i < |other| && other[i] == last;
      var rest := other[..i] + other[i + 1..];
      Listing.WithoutOne(other, i);
      Listing.WithoutOne(one, k);
      assert one[..k] + one[k + 1..] == front;
      hide SumOver;
      SumForAnyOrder(next, roles, uid, front, rest);
      SumWithout(next, roles, uid, other, i);
      assert front + [last] == one;
      SumSnoc(next, roles, uid, front, last);
    }
  }

  lemma {:induction false} OfferedIsSum(next: map<string, seq<Transition>>, roles: Roles, uid: string, order: seq<string>)
    requires forall r | r in order :: r in next
    ensures multiset(Offered(next, roles, uid, order)) == SumOver(next, roles, uid, order)
  {
    if order != [] {
      OfferedIsSum(next, roles, uid, order[..|order| - 1]);
      assert order[|order| - 1] in order;
    }
  }

  /** The transitions offered are the multiset union over EVERYBODY and the user's roles,
      whatever the order of the walk. */
  lemma TransitionsForAnyOrder(next: map<string, seq<Transition>>, roles: Roles, uid: string, one: seq<string>, other: seq<string>)
    requires Walks(one, next.Keys) && Walks(other, next.Keys)
    ensures multiset(Offered(next, roles, uid, one)) == multiset(Offered(next, roles, uid, other)) == SumOver(next, roles, uid, one)
  {
    OfferedIsSum(next, roles, uid, one);
    OfferedIsSum(next, roles, uid, other);
    assert multiset(one) == multiset(other) by { Listing.SameSet(one, other); }
    SumForAnyOrder(next, roles, uid, one, other);
  }

  // What the folds mean for the item.

  lemma ItemMaskMeans(item: map<string, Property>, roles: Roles, masks: map<string, Mask>, uid: string, order: seq<string>, bit: nat)
    requires Walks(order, masks.Keys) && forall r, u :: Holds(roles, r, u) <==> Performs(item, r, u)
    ensures var m := ItemMask(masks, roles, uid, order);
            && (m.Some? <==> exists r :: r in masks && Performs(item, r, uid))
            && (m.Some? ==> (bit in m.value <==> exists r :: r in masks && bit in masks[r] && Performs(item, r, uid)))
  {
    hide ItemMask, Performs, Holds;
    ItemMaskIsOr(masks, roles, uid, order, bit);
  }

  lemma PropertyMaskMeans(item: map<string, Property>, roles: Roles, masks: map<string, Mask>, uid: string, order: seq<string>, bit: nat)
    requires Walks(order, masks.Keys) && forall r, u :: Holds(roles, r, u) <==> Performs(item, r, u)
    ensures var m := PropertyMask(masks, roles, uid, order);
            && (m.Some? <==> exists r :: r in masks && Performs(item, r, uid))
            && (m.Some? ==> (bit in m.value <==> forall r | r in masks && Performs(item, r, uid) :: bit in masks[r]))
  {
    hide PropertyMask, Performs, Holds;
    PropertyMaskIsAnd(masks, roles, uid, order, bit);
  }

  /** What is offered to a user, as a multiset, is what the user's roles have, however they are listed. */
  lemma OfferedMeans(item: map<string, Property>, roles: Roles, next: map<string, seq<Transition>>, uid: string, order: seq<string>, mine: seq<string>)
    requires Walks(order, next.Keys) && IsMine(item, next, uid, mine)
    requires forall r, u :: Holds(roles, r, u) <==> Performs(item, r, u)
    ensures multiset(Offered(next, roles, uid, order)) == multiset(AllOf(next, mine))
  {
    hide Offered, SumOver, Performs;
    forall r ensures r in mine <==> r in next && IsOf(roles, uid, r) {
      if r in roles {
        assert Holds(roles, r, roles[r]);
        assert Holds(roles, r, uid) <==> roles[r] == uid;
      } else {
        assert forall u :: !Holds(roles, r, u);
      }
    }
    OfferedIsSum(next, roles, uid, order);
    SumIsMine(next, roles, uid, order, mine);
  }

  lemma ItemsGranted(item: map<string, Property>, roles: Roles, items: map<string, Mask>, order: seq<string>, granted: map<string, Mask>)
    requires Walks(order, items.Keys) && forall r, u :: Holds(roles, r, u) <==> Performs(item, r, u)
    requires forall uid :: Get(granted, uid) == ItemMask(items, roles, uid, order)
    ensures ItemGrants(item, items, granted)
  {
    hide ItemMask, Performs, Holds, Walks;
    forall uid ensures uid in granted <==> exists r :: r in items && Performs(item, r, uid) {
      assert Get(granted, uid) == ItemMask(items, roles, uid, order);
      ItemMaskMeans(item, roles, items, uid, order, 0);
    }
    forall uid, bit | uid in granted
      ensures bit in granted[uid] <==> exists r :: r in items && bit in items[r] && Performs(item, r, uid) {
      assert Get(granted, uid) == ItemMask(items, roles, uid, order);
      ItemMaskMeans(item, roles, items, uid, order, bit);
    }
  }

  lemma PropertiesGranted(item: map<string, Property>, roles: Roles, props: map<string, map<string, Mask>>, roleOrder: map<string, seq<string>>,
                          granted: map<string, map<string, Mask>>)
    requires forall p | p in props :: p in roleOrder && Walks(roleOrder[p], props[p].Keys)
    requires forall r, u :: Holds(roles, r, u) <==> Performs(item, r, u)
    requires forall uid, p | p in props :: MaskOf(granted, uid, p) == PropertyMask(props[p], roles, uid, roleOrder[p])
    requires forall uid, p | p !in props :: MaskOf(granted, uid, p) == None
    ensures PropertyGrants(item, props, granted)
  {
    hide PropertyMask, Performs, Holds, Walks, MaskOf;
    forall uid, p ensures MaskOf(granted, uid, p).Some? <==> p in props && exists r :: r in props[p] && Performs(item, r, uid) {
      if p in props {
        PropertyMaskMeans(item, roles, props[p], uid, roleOrder[p], 0);
      }
    }
    forall uid, p, bit | MaskOf(granted, uid, p).Some?
      ensures bit in MaskOf(granted, uid, p).value <==> forall r | r in props[p] && Performs(item, r, uid) :: bit in props[p][r] {
      PropertyMaskMeans(item, roles, props[p], uid, roleOrder[p], bit);
    }
  }

  lemma MineOffered(item: map<string, Property>, roles: Roles, next: map<string, seq<Transition>>, order: seq<string>, kept: map<string, seq<Transition>>)
    requires Walks(order, next.Keys) && forall r, u :: Holds(roles, r, u) <==> Performs(item, r, u)
    requires forall uid :: TransitionsOf(kept, uid) == Offered(next, roles, uid, order)
    ensures TransitionOffers(item, next, kept)
  {
    hide Offered, Performs, Holds, TransitionsOf;
    forall uid, mine | IsMine(item, next, uid, mine)
      ensures multiset(TransitionsOf(kept, uid)) == multiset(AllOf(next, mine)) {
      OfferedMeans(item, roles, next, uid, order, mine);
    }
  }

  predicate IsOf(roles: Roles, uid: string, r: string) {
    if r in roles then roles[r] == uid else r == EVERYBODY == uid
  }

  lemma {:induction false} SumIsMine(next: map<string, seq<Transition>>, roles: Roles, uid: string, order: seq<string>, mine: seq<string>)
    requires Listing.Distinct(order) && Listing.Distinct(mine) && forall r | r in order :: r in next
    requires forall r :: r in mine <==> r in order && IsOf(roles, uid, r)
    ensures SumOver(next, roles, uid, order) == multiset(AllOf(next, mine))
  {
    if order == [] {
      Listing.DistinctSize(mine, {});
    } else {
      var front, last := order[..|order| - 1], order[|order| - 1];
      assert order == front + [last] && last !in front;
      assert forall r :: r in order <==> r in front || r == last;
      if last in mine {
        var i :| 0 <= i < |mine| && mine[i] == last;
        var rest := mine[..i] + mine[i + 1..];
        assert forall r :: r in rest <==> r in mine && r != last;
        SumIsMine(next, roles, uid, front, rest);
        AllOfWithout(next, mine, i);
      } else {
        SumIsMine(next, roles, uid, front, mine);
      }
    }
  }

  lemma {:induction false} AllOfWithout(next: map<string, seq<Transition>>, mine: seq<string>, i: nat)
    requires i < |mine| && forall r | r in mine :: r in next
    ensures multiset(AllOf(next, mine)) == multiset(AllOf(next, mine[..i] + mine[i + 1..])) + multiset(next[mine[i]])
  {
    var front, last := mine[..|mine| - 1], mine[|mine| - 1];
    if i == |mine| - 1 {
      assert mine[..i] + mine[i + 1..] == front;
    } else {
      var short, rest := front[..i] + front[i + 1..], mine[..i] + mine[i + 1..];
      assert rest == short + [last] && rest[..|rest| - 1] == short;
      AllOfWithout(next, front, i);
    }
  }

  /** What a configuration without any assigned role means: everything is allowed. */
  lemma UnassignedAllowsEverything(masks: map<string, Mask>, roles: Roles, order: seq<string>, folded: map<string, Mask>)
    requires Walks(order, masks.Keys) && forall uid :: Get(folded, uid) == ItemMask(masks, roles, uid, order)
    ensures folded == map[] <==> forall r | r in masks :: r !in roles
  {
    if r :| r in masks && r in roles {
      ItemMaskIsOr(masks, roles, roles[r], order, 0);
      assert Holds(roles, r, roles[r]) && r in order;
      assert Get(folded, roles[r]).Some?;
    } else {
      forall uid ensures uid !in folded {
        ItemMaskIsOr(masks, roles, uid, order, 0);
        assert Get(folded, uid) == None;
      }
    }
  }
}
