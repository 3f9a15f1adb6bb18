/**
 * Migration 37, "Reorganize roles and eliminate inactiveOperator": every
 * 'inactiveOperator' becomes an 'operator', then each role array becomes a
 * record from scope to roles, where 'operator' is granted once per hunt
 * the user belongs to and every other role goes under the global scope.
 *
 * The global scope's value comes from imports/lib/is-admin.ts, which is not
 * part of this model; it is the parameter `globalScope` throughout.
 */
module Migration37 {
  import opened Wrappers

  /** A record `Record<string, string[]>`, as its entries in insertion order. */
  type RoleRecord = seq<(string, seq<string>)>

  /** The `roles` field of a user: an array before the migration, a record after it, or absent. */
  datatype Roles = NoRoles | RoleArray(items: seq<string>) | RoleMap(entries: RoleRecord)

  /** The parts of a MeteorUsers document the migration reads; `hunts` may be undefined. */
  datatype User = User(id: string, roles: Roles, hunts: Option<seq<string>>)

  const Operator := "operator"
  const InactiveOperator := "inactiveOperator"

  // ---------------------------------------------------------------- records

  /** The keys of a record, in insertion order. */
  function Keys(rec: RoleRecord): (ks: seq<string>)
    ensures |ks| == |rec|
  {
    if |rec| == 0 then [] else Keys(rec[..|rec| - 1]) + [rec[|rec| - 1].0]
  }

  predicate Distinct(xs: seq<string>) {
    forall i, j :: 0 <= i < j < |xs| ==> xs[i] != xs[j]
  }

  /** `rec[scope]`, or none if the record has no such key. */
  function Get(rec: RoleRecord, scope: string): seq<string> {
    if |rec| == 0 then []
    else if rec[|rec| - 1].0 == scope then rec[|rec| - 1].1
    else Get(rec[..|rec| - 1], scope)
  }

  /** The number of roles in the whole record. */
  function Total(rec: RoleRecord): nat {
    if |rec| == 0 then 0 else Total(rec[..|rec| - 1]) + |rec[|rec| - 1].1|
  }

  /** Appends `role` to the entry of an existing key. */
  function AddTo(rec: RoleRecord, scope: string, role: string): (r: RoleRecord)
    ensures |r| == |rec|
  {
    if |rec| == 0 then []
    else if rec[|rec| - 1].0 == scope then rec[..|rec| - 1] + [(scope, rec[|rec| - 1].1 + [role])]
    else AddTo(rec[..|rec| - 1], scope, role) + [rec[|rec| - 1]]
  }

  /** `rec[scope] ||= []; rec[scope].push(role)`: a new key goes after the existing ones. */
  function Push(rec: RoleRecord, scope: string, role: string): RoleRecord {
    if scope in Keys(rec) then AddTo(rec, scope, role) else rec + [(scope, [role])]
  }

  lemma LastParts(rec: RoleRecord, e: (string, seq<string>))
    ensures (rec + [e])[..|rec|] == rec && (rec + [e])[|rec|] == e
  {
  }

  lemma {:induction false} AddToFacts(rec: RoleRecord, scope: string, role: string)
    requires scope in Keys(rec)
    ensures Keys(AddTo(rec, scope, role)) == Keys(rec)
    ensures Total(AddTo(rec, scope, role)) == Total(rec) + 1
    decreases |rec|
  {
    var n := |rec| - 1;
    var init := rec[..n];
    var last := rec[n];
    if last.0 == scope {
      LastParts(init, (scope, last.1 + [role]));
    } else {
      assert scope in Keys(init);
      AddToFacts(init, scope, role);
      LastParts(AddTo(init, scope, role), last);
    }
  }

  lemma {:induction false} AddToGet(rec: RoleRecord, scope: string, role: string, s: string)
    requires scope in Keys(rec)
    ensures Get(AddTo(rec, scope, role), s) == Get(rec, s) + (if s == scope then [role] else [])
    decreases |rec|
  {
    var n := |rec| - 1;
    var init := rec[..n];
    var last := rec[n];
    if last.0 == scope {
      LastParts(init, (scope, last.1 + [role]));
    } else {
      assert scope in Keys(init);
      AddToGet(init, scope, role, s);
      LastParts(AddTo(init, scope, role), last);
    }
  }

  /** `rec[scope] ||= []; rec[scope].push(role)` keeps the old keys, adds a new scope last, and adds one role. */
  lemma PushFacts(rec: RoleRecord, scope: string, role: string)
    ensures Keys(Push(rec, scope, role)) == if scope in Keys(rec) then Keys(rec) else Keys(rec) + [scope]
    ensures Total(Push(rec, scope, role)) == Total(rec) + 1
  {
    if scope in Keys(rec) {
      AddToFacts(rec, scope, role);
    } else {
      LastParts(rec, (scope, [role]));
    }
  }

  /** Pushing appends the role to that scope's roles and to no other. */
  lemma PushGet(rec: RoleRecord, scope: string, role: string, s: string)
    ensures Get(Push(rec, scope, role), s) == Get(rec, s) + (if s == scope then [role] else [])
  {
    if scope in Keys(rec) {
      AddToGet(rec, scope, role, s);
    } else {
      LastParts(rec, (scope, [role]));
      GetAbsent(rec, scope);
    }
  }

  lemma {:induction false} GetAbsent(rec: RoleRecord, scope: string)
    requires scope !in Keys(rec)
    ensures Get(rec, scope) == []
    decreases |rec|
  {
    if |rec| > 0 {
      GetAbsent(rec[..|rec| - 1], scope);
    }
  }

  /** Pushing keeps the keys distinct. */
  lemma PushKeepsDistinct(rec: RoleRecord, scope: string, role: string)
    requires Distinct(Keys(rec))
    ensures Distinct(Keys(Push(rec, scope, role)))
  {
    PushFacts(rec, scope, role);
  }

  /** `hunts.forEach((h) => push(h, role))`. */
  function PushAll(rec: RoleRecord, scopes: seq<string>, role: string): RoleRecord
    decreases |scopes|
  {
    if |scopes| == 0 then rec
    else Push(PushAll(rec, scopes[..|scopes| - 1], role), scopes[|scopes| - 1], role)
  }

  // ------------------------------------------------------------ conversion

  /** The hunts of a user, `[]` when `user.hunts` is undefined (the `?.` skips the loop). */
  function HuntsOf(hunts: Option<seq<string>>): seq<string> {
    if hunts.Some? then hunts.value else []
  }

  /** The record the second loop builds from a role array. */
  function NewRoles(roles: seq<string>, hunts: seq<string>, globalScope: string): RoleRecord
    decreases |roles|
  {
    if |roles| == 0 then []
    else
      var prev := NewRoles(roles[..|roles| - 1], hunts, globalScope);
      var role := roles[|roles| - 1];
      if role == Operator then PushAll(prev, hunts, Operator) else Push(prev, globalScope, role)
  }

  /** The non-operator roles, in order, duplicates included. */
  function NonOperator(roles: seq<string>): (r: seq<string>)
    ensures |r| <= |roles|
  {
    if |roles| == 0 then []
    else NonOperator(roles[..|roles| - 1]) + (if roles[|roles| - 1] != Operator then [roles[|roles| - 1]] else [])
  }

  /** How often `x` occurs in `xs`. */
  function Occurrences(xs: seq<string>, x: string): (n: nat)
    ensures n <= |xs|
  {
    if |xs| == 0 then 0
    else Occurrences(xs[..|xs| - 1], x) + (if xs[|xs| - 1] == x then 1 else 0)
  }

  function Repeat(x: string, n: nat): (r: seq<string>)
    ensures |r| == n && forall i :: 0 <= i < n ==> r[i] == x
  {
    if n == 0 then [] else Repeat(x, n - 1) + [x]
  }

  lemma {:induction false} PushAllGet(rec: RoleRecord, scopes: seq<string>, role: string, s: string)
    ensures Get(PushAll(rec, scopes, role), s) == Get(rec, s) + Repeat(role, Occurrences(scopes, s))
    decreases |scopes|
  {
    if |scopes| > 0 {
      var n := |scopes| - 1;
      var prev := PushAll(rec, scopes[..n], role);
      PushAllGet(rec, scopes[..n], role, s);
      PushGet(prev, scopes[n], role, s);
      if scopes[n] == s {
        assert Repeat(role, Occurrences(scopes, s)) == Repeat(role, Occurrences(scopes[..n], s)) + [role];
      } else {
        assert Occurrences(scopes, s) == Occurrences(scopes[..n], s);
      }
    }
  }

  lemma {:induction false} PushAllTotal(rec: RoleRecord, scopes: seq<string>, role: string)
    ensures Total(PushAll(rec, scopes, role)) == Total(rec) + |scopes|
    decreases |scopes|
  {
    if |scopes| > 0 {
      var n := |scopes| - 1;
      PushAllTotal(rec, scopes[..n], role);
      PushFacts(PushAll(rec, scopes[..n], role), scopes[n], role);
    }
  }

  lemma {:induction false} PushAllKeys(rec: RoleRecord, scopes: seq<string>, role: string)
    requires Distinct(Keys(rec))
    ensures Distinct(Keys(PushAll(rec, scopes, role)))
    ensures forall s :: s in Keys(PushAll(rec, scopes, role)) ==> s in Keys(rec) || s in scopes
    decreases |scopes|
  {
    if |scopes| > 0 {
      var n := |scopes| - 1;
      PushAllKeys(rec, scopes[..n], role);
      PushFacts(PushAll(rec, scopes[..n], role), scopes[n], role);
      assert forall s :: s in scopes[..n] ==> s in scopes;
    }
  }

  /** Every non-operator role goes under the global scope, in original order, duplicates included. */
  lemma {:induction false} GlobalScopeHoldsNonOperatorRoles(roles: seq<string>, hunts: seq<string>, globalScope: string)
    requires globalScope !in hunts
    ensures Get(NewRoles(roles, hunts, globalScope), globalScope) == NonOperator(roles)
    decreases |roles|
  {
    if |roles| > 0 {
      var n := |roles| - 1;
      var prev := NewRoles(roles[..n], hunts, globalScope);
      GlobalScopeHoldsNonOperatorRoles(roles[..n], hunts, globalScope);
      if roles[n] == Operator {
        PushAllGet(prev, hunts, Operator, globalScope);
        OccurrencesAbsent(hunts, globalScope);
      } else {
        PushGet(prev, globalScope, roles[n], globalScope);
      }
    }
  }

  /** Each 'operator' grants 'operator' under every hunt the user is in, once per listing of that hunt. */
  lemma {:induction false} HuntScopesHoldOperator(roles: seq<string>, hunts: seq<string>, globalScope: string, h: string)
    requires h != globalScope
    ensures Get(NewRoles(roles, hunts, globalScope), h) == Repeat(Operator, Occurrences(roles, Operator) * Occurrences(hunts, h))
    decreases |roles|
  {
    if |roles| > 0 {
      HuntScopesHoldOperator(roles[..|roles| - 1], hunts, globalScope, h);
      HuntScopesStep(roles, hunts, globalScope, h);
    }
  }

  /** The inductive step of `HuntScopesHoldOperator`, for the last role. */
  lemma HuntScopesStep(roles: seq<string>, hunts: seq<string>, globalScope: string, h: string)
    requires h != globalScope && |roles| > 0
    requires Get(NewRoles(roles[..|roles| - 1], hunts, globalScope), h) ==
             Repeat(Operator, Occurrences(roles[..|roles| - 1], Operator) * Occurrences(hunts, h))
    ensures Get(NewRoles(roles, hunts, globalScope), h) == Repeat(Operator, Occurrences(roles, Operator) * Occurrences(hunts, h))
  {
    var n := |roles| - 1;
    var prev := NewRoles(roles[..n], hunts, globalScope);
    var a := Occurrences(roles[..n], Operator);
    var k := Occurrences(roles, Operator);
    var m := Occurrences(hunts, h);
    if roles[n] == Operator {
      assert NewRoles(roles, hunts, globalScope) == PushAll(prev, hunts, Operator);
      assert k == a + 1;
      PushAllGet(prev, hunts, Operator, h);
      RepeatMore(Operator, a, m, k);
    } else {
      assert NewRoles(roles, hunts, globalScope) == Push(prev, globalScope, roles[n]);
      assert k == a;
      PushGet(prev, globalScope, roles[n], h);
    }
  }

  /** `a * m` copies and `m` more make `(a + 1) * m`. */
  lemma RepeatMore(x: string, a: nat, m: nat, k: nat)
    requires k == a + 1
    ensures Repeat(x, a * m) + Repeat(x, m) == Repeat(x, k * m)
  {
    MulSucc(a, m);
    RepeatAppend(x, a * m, m);
  }

  /** The record holds (#non-operator roles) + (#operator roles × |hunts|) entries. */
  lemma {:induction false} NewRolesTotal(roles: seq<string>, hunts: seq<string>, globalScope: string)
    ensures Total(NewRoles(roles, hunts, globalScope)) == |NonOperator(roles)| + Occurrences(roles, Operator) * |hunts|
    decreases |roles|
  {
    if |roles| > 0 {
      NewRolesTotal(roles[..|roles| - 1], hunts, globalScope);
      NewRolesTotalStep(roles, hunts, globalScope);
    }
  }

  /** The inductive step of `NewRolesTotal`, for the last role. */
  lemma NewRolesTotalStep(roles: seq<string>, hunts: seq<string>, globalScope: string)
    requires |roles| > 0
    requires Total(NewRoles(roles[..|roles| - 1], hunts, globalScope)) ==
             |NonOperator(roles[..|roles| - 1])| + Occurrences(roles[..|roles| - 1], Operator) * |hunts|
    ensures Total(NewRoles(roles, hunts, globalScope)) == |NonOperator(roles)| + Occurrences(roles, Operator) * |hunts|
  {
    var n := |roles| - 1;
    var prev := NewRoles(roles[..n], hunts, globalScope);
    var a := Occurrences(roles[..n], Operator);
    var b := |NonOperator(roles[..n])|;
    var m := |hunts|;
    var t := Total(prev);
    if roles[n] == Operator {
      PushAllTotal(prev, hunts, Operator);
      assert Total(NewRoles(roles, hunts, globalScope)) == t + m;
      assert Occurrences(roles, Operator) == a + 1;
      assert |NonOperator(roles)| == b;
      AddColumn(Total(NewRoles(roles, hunts, globalScope)), |NonOperator(roles)|, Occurrences(roles, Operator), m, t, b, a);
    } else {
      PushFacts(prev, globalScope, roles[n]);
      assert Total(NewRoles(roles, hunts, globalScope)) == t + 1;
      assert Occurrences(roles, Operator) == a;
      assert |NonOperator(roles)| == b + 1;
      AddRow(Total(NewRoles(roles, hunts, globalScope)), |NonOperator(roles)|, Occurrences(roles, Operator), m, t, b, a);
    }
  }

  lemma MulSucc(a: nat, m: nat)
    ensures (a + 1) * m == a * m + m
  {
  }

  /** One more operator role adds one entry per hunt. */
  lemma AddColumn(total: nat, nonOp: nat, ops: nat, m: nat, t: nat, b: nat, a: nat)
    requires t == b + a * m
    requires total == t + m && ops == a + 1 && nonOp == b
    ensures total == nonOp + ops * m
  {
  }

  /** One more non-operator role adds one entry. */
  lemma AddRow(total: nat, nonOp: nat, ops: nat, m: nat, t: nat, b: nat, a: nat)
    requires t == b + a * m
    requires total == t + 1 && ops == a && nonOp == b + 1
    ensures total == nonOp + ops * m
  {
  }

  /**
   * The record's keys are distinct and are only the global scope and the
   * user's hunts: a user with no hunts keeps no operator entry.
   */
  lemma {:induction false} NewRolesKeys(roles: seq<string>, hunts: seq<string>, globalScope: string)
    ensures Distinct(Keys(NewRoles(roles, hunts, globalScope)))
    ensures forall s :: s in Keys(NewRoles(roles, hunts, globalScope)) ==> s == globalScope || s in hunts
    decreases |roles|
  {
    if |roles| == 0 {
      assert NewRoles(roles, hunts, globalScope) == [];
    } else {
      var n := |roles| - 1;
      var prev := NewRoles(roles[..n], hunts, globalScope);
      NewRolesKeys(roles[..n], hunts, globalScope);
      if roles[n] == Operator {
        assert NewRoles(roles, hunts, globalScope) == PushAll(prev, hunts, Operator);
        PushAllKeys(prev, hunts, Operator);
      } else {
        assert NewRoles(roles, hunts, globalScope) == Push(prev, globalScope, roles[n]);
        PushFacts(prev, globalScope, roles[n]);
      }
    }
  }

  lemma {:induction false} OccurrencesAbsent(xs: seq<string>, x: string)
    requires x !in xs
    ensures Occurrences(xs, x) == 0
    decreases |xs|
  {
    if |xs| > 0 {
      assert forall y :: y in xs[..|xs| - 1] ==> y in xs;
      OccurrencesAbsent(xs[..|xs| - 1], x);
    }
  }

  lemma {:induction false} RepeatAppend(x: string, a: nat, b: nat)
    ensures Repeat(x, a) + Repeat(x, b) == Repeat(x, a + b)
    decreases b
  {
    if b > 0 {
      RepeatAppend(x, a, b - 1);
      assert Repeat(x, a) + Repeat(x, b) == Repeat(x, a) + Repeat(x, b - 1) + [x];
    }
  }

  // ------------------------------------------------------- first loop

  /** `$pull: { roles: x }`: every occurrence removed. */
  function Pull(xs: seq<string>, x: string): (r: seq<string>)
    ensures x !in r
    ensures forall y :: y in r <==> y in xs && y != x
  {
    if |xs| == 0 then []
    else
      assert forall y :: y in xs <==> y in xs[..|xs| - 1] || y == xs[|xs| - 1];
      Pull(xs[..|xs| - 1], x) + (if xs[|xs| - 1] == x then [] else [xs[|xs| - 1]])
  }

  /** The first loop on one user: `$push 'operator'` then `$pull 'inactiveOperator'`, for arrays holding it. */
  function RetireInactive(roles: Roles): (r: Roles)
    ensures r.NoRoles? <==> roles.NoRoles?
    ensures r.RoleArray? <==> roles.RoleArray?
    ensures r.RoleArray? ==> InactiveOperator !in r.items
    ensures roles.RoleArray? && InactiveOperator in roles.items ==>
      r.items == Pull(roles.items, InactiveOperator) + [Operator]
    ensures !(roles.RoleArray? && InactiveOperator in roles.items) ==> r == roles
  {
    if roles.RoleArray? && InactiveOperator in roles.items then
      assert Pull(roles.items + [Operator], InactiveOperator) == Pull(roles.items, InactiveOperator) + [Operator] by {
        assert (roles.items + [Operator])[..|roles.items|] == roles.items;
      }
      RoleArray(Pull(roles.items + [Operator], InactiveOperator))
    else roles
  }

  /** `$push` does not deduplicate: an operator who was also inactive ends with 'operator' twice. */
  lemma RetireInactiveDuplicates()
    ensures RetireInactive(RoleArray([Operator, InactiveOperator])) == RoleArray([Operator, Operator])
  {
    assert Pull([Operator], InactiveOperator) == [Operator] by {
      assert [Operator][..0] == [];
    }
    assert [Operator, InactiveOperator][..1] == [Operator];
  }

  /** The second loop on one user: only role arrays are rewritten. */
  function Reorganize(u: User, globalScope: string): (r: User)
    ensures r.id == u.id && r.hunts == u.hunts
    ensures u.roles.RoleArray? ==> r.roles == RoleMap(NewRoles(u.roles.items, HuntsOf(u.hunts), globalScope))
    ensures !u.roles.RoleArray? ==> r == u
  {
    if u.roles.RoleArray? then u.(roles := RoleMap(NewRoles(u.roles.items, HuntsOf(u.hunts), globalScope)))
    else u
  }

  /** `up()` on one user. */
  function Migrate(u: User, globalScope: string): (r: User)
    ensures r.id == u.id && r.hunts == u.hunts
    ensures u.roles.RoleArray? ==> r.roles == RoleMap(NewRoles(RetireInactive(u.roles).items, HuntsOf(u.hunts), globalScope))
    ensures !u.roles.RoleArray? ==> r == u
  {
    Reorganize(u.(roles := RetireInactive(u.roles)), globalScope)
  }

  /** After the migration a former inactive operator holds 'operator' in every hunt it is a member of. */
  lemma MigrateRetiresInactive(u: User, globalScope: string, s: string)
    requires u.roles.RoleArray? && InactiveOperator in u.roles.items
    requires s in HuntsOf(u.hunts) && s != globalScope
    ensures Operator in Get(Migrate(u, globalScope).roles.entries, s)
  {
    var items := RetireInactive(u.roles).items;
    var hunts := HuntsOf(u.hunts);
    HuntScopesHoldOperator(items, hunts, globalScope, s);
    OccurrencesOfLast(Pull(u.roles.items, InactiveOperator), Operator);
    OccurrencesPresent(hunts, s);
    assert Migrate(u, globalScope).roles == RoleMap(NewRoles(items, hunts, globalScope));
    MulPositive(Occurrences(items, Operator), Occurrences(hunts, s));
    assert Repeat(Operator, Occurrences(items, Operator) * Occurrences(hunts, s))[0] == Operator;
  }

  /** After the migration no scope of a user's role record holds 'inactiveOperator'. */
  lemma MigrateLeavesNoInactive(u: User, globalScope: string, s: string)
    requires u.roles.RoleArray?
    ensures Migrate(u, globalScope).roles.RoleMap?
    ensures InactiveOperator !in Get(Migrate(u, globalScope).roles.entries, s)
  {
    var items := RetireInactive(u.roles).items;
    var hunts := HuntsOf(u.hunts);
    assert Migrate(u, globalScope).roles == RoleMap(NewRoles(items, hunts, globalScope));
    NewRolesKeepsAbsent(items, hunts, globalScope, s, InactiveOperator);
  }

  /** The record holds only 'operator' and roles of the array: any other role stays absent from every scope. */
  lemma {:induction false} NewRolesKeepsAbsent(roles: seq<string>, hunts: seq<string>, globalScope: string, s: string, x: string)
    requires x !in roles && x != Operator
    ensures x !in Get(NewRoles(roles, hunts, globalScope), s)
    decreases |roles|
  {
    if |roles| > 0 {
      var n := |roles| - 1;
      assert roles[..n] <= roles;
      NewRolesKeepsAbsent(roles[..n], hunts, globalScope, s, x);
      var prev := NewRoles(roles[..n], hunts, globalScope);
      if roles[n] == Operator {
        PushAllGet(prev, hunts, Operator, s);
      } else {
        PushGet(prev, globalScope, roles[n], s);
      }
    }
  }

  lemma MulPositive(a: nat, b: nat)
    requires a >= 1 && b >= 1
    ensures a * b >= 1
  {
  }

  lemma OccurrencesOfLast(xs: seq<string>, x: string)
    ensures Occurrences(xs + [x], x) >= 1
  {
    assert (xs + [x])[..|xs|] == xs;
  }

  lemma {:induction false} OccurrencesPresent(xs: seq<string>, x: string)
    requires x in xs
    ensures Occurrences(xs, x) >= 1
    decreases |xs|
  {
    if xs[|xs| - 1] != x {
      assert x in xs[..|xs| - 1];
      OccurrencesPresent(xs[..|xs| - 1], x);
    }
  }

  /** The MeteorUsers collection, in table order. */
  class UserTable {
    var users: seq<User>

    constructor (users0: seq<User>)
      ensures users == users0
    {
      users := users0;
    }

    /** Builds the record of the second loop with the code's nested `forEach` loops. */
    static method BuildNewRoles(roles: seq<string>, hunts: seq<string>, globalScope: string) returns (newRoles: RoleRecord)
      ensures newRoles == NewRoles(roles, hunts, globalScope)
    {
      newRoles := [];
      var i := 0;
      while i < |roles|
        invariant 0 <= i <= |roles|
        invariant newRoles == NewRoles(roles[..i], hunts, globalScope)
      {
        assert roles[..i + 1][..i] == roles[..i];
        if roles[i] == Operator {
          var j := 0;
          ghost var before := newRoles;
          while j < |hunts|
            invariant 0 <= j <= |hunts|
            invariant newRoles == PushAll(before, hunts[..j], Operator)
          {
            assert hunts[..j + 1][..j] == hunts[..j];
            newRoles := Push(newRoles, hunts[j], Operator);
            j := j + 1;
          }
          assert hunts[..j] == hunts;
        } else {
          newRoles := Push(newRoles, globalScope, roles[i]);
        }
        i := i + 1;
      }
      assert roles[..i] == roles;
    }

    /** `up()`: the inactiveOperator pass over every user, then the conversion pass. */
    method Up(globalScope: string)
      modifies this
      ensures |users| == |old(users)|
      ensures forall k :: 0 <= k < |users| ==> users[k] == Migrate(old(users)[k], globalScope)
    {
      var i := 0;
      while i < |users|
        invariant 0 <= i <= |users| == |old(users)|
        invariant forall k :: 0 <= k < i ==> users[k] == old(users)[k].(roles := RetireInactive(old(users)[k].roles))
        invariant forall k :: i <= k < |users| ==> users[k] == old(users)[k]
      {
        var u := users[i];
        if u.roles.RoleArray? && InactiveOperator in u.roles.items {
          var pushed := u.roles.items + [Operator];
          users := users[i := u.(roles := RoleArray(Pull(pushed, InactiveOperator)))];
        }
        i := i + 1;
      }
      i := 0;
      while i < |users|
        invariant 0 <= i <= |users| == |old(users)|
        invariant forall k :: 0 <= k < i ==> users[k] == Migrate(old(users)[k], globalScope)
        invariant forall k :: i <= k < |users| ==> users[k] == old(users)[k].(roles := RetireInactive(old(users)[k].roles))
      {
        var u := users[i];
        if u.roles.RoleArray? {
          var newRoles := BuildNewRoles(u.roles.items, HuntsOf(u.hunts), globalScope);
          users := users[i := u.(roles := RoleMap(newRoles))];
        }
        i := i + 1;
      }
    }
  }
}
