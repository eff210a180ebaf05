/** The MongoDB repositories as in-memory collections. Flows, users and
    roles are keyed by their id; flow errors keep their natural (insertion)
    order, which the duplicate filter depends on. A lookup hands back a new
    object materialised from the stored document, as Spring Data does. The
    id a new document receives is an input: the caller passes the ObjectId
    the driver generated. */
module Repositories {
  import opened Common
  import opened Entities

  /** An id the driver may give a new document of `keys`' collection. */
  predicate FreshObjectId(id: string, keys: set<string>)
  {
    IsObjectIdHex(id) && id !in keys
  }

  // ---------------------------------------------------------------------
  // Flows
  // ---------------------------------------------------------------------

  /** The flows of `docs` owned by the user id `owner`. */
  function FlowsOwnedBy(docs: map<string, FlowDoc>, owner: ObjectId): (owned: set<string>)
    ensures owned <= docs.Keys
    ensures forall k :: k in owned <==> k in docs && docs[k].userId == Some(owner)
  {
    set k | k in docs && docs[k].userId == Some(owner)
  }

  class FlowRepository {
    var docs: map<string, FlowDoc>

    /** Every document is stored under its own id. */
    ghost predicate Valid()
      reads this
    {
      forall k :: k in docs ==> docs[k].id == Some(k)
    }

    constructor ()
      ensures docs == map[] && Valid()
    {
      docs := map[];
    }

    method FindById(id: string) returns (flow: Option<DataFlow>)
      ensures flow.Some? <==> id in docs
      ensures flow.Some? ==> fresh(flow.value) && flow.value.Doc() == docs[id]
    {
      if id in docs {
        var f := new DataFlow.FromDoc(docs[id]);
        flow := Some(f);
      } else {
        flow := None;
      }
    }

    /** Inserts or replaces by id; a flow without an id gets `newId`, written
        back into the object, which is also what is returned. */
    method Save(flow: DataFlow, newId: string) returns (saved: DataFlow)
      requires Valid()
      requires flow.id.None? ==> FreshObjectId(newId, docs.Keys)
      modifies this, flow
      ensures Valid()
      ensures saved == flow
      ensures flow.id == (if old(flow.id).Some? then old(flow.id) else Some(newId))
      ensures flow.Doc() == old(flow.Doc()).(id := flow.id)
      ensures docs == old(docs)[flow.id.value := flow.Doc()]
    {
      if flow.id.None? {
        flow.SetId(Some(newId));
      }
      docs := docs[flow.id.value := flow.Doc()];
      saved := flow;
    }

    method DeleteById(id: string)
      requires Valid()
      modifies this
      ensures Valid()
      ensures docs == old(docs) - {id}
    {
      docs := docs - {id};
    }

    /** Removal by the entity's id; an entity without an id matches no
        document. */
    method Delete(flow: DataFlow)
      requires Valid()
      modifies this
      ensures Valid()
      ensures flow.id.Some? ==> docs == old(docs) - {flow.id.value}
      ensures flow.id.None? ==> docs == old(docs)
    {
      if flow.id.Some? {
        docs := docs - {flow.id.value};
      }
    }

    /** deleteAll: removes the documents with the given ids. */
    method DeleteAll(ids: set<string>)
      requires Valid()
      modifies this
      ensures Valid()
      ensures docs == old(docs) - ids
    {
      docs := docs - ids;
    }

    /** findAll: every stored flow once, in an order the store chooses. */
    method FindAll() returns (all: seq<FlowDoc>)
      requires Valid()
      ensures forall d :: d in all <==> d in docs.Values
      ensures forall i, j :: 0 <= i < j < |all| ==> all[i] != all[j]
    {
      all := [];
      var left := docs.Keys;
      while left != {}
        invariant left <= docs.Keys
        invariant forall i :: 0 <= i < |all| ==> all[i].id.Some? && all[i].id.value in docs &&
                                                 all[i].id.value !in left && docs[all[i].id.value] == all[i]
        invariant forall k :: k in docs && k !in left ==> docs[k] in all
        invariant forall i, j :: 0 <= i < j < |all| ==> all[i] != all[j]
        decreases |left|
      {
        var k :| k in left;
        all := all + [docs[k]];
        left := left - {k};
      }
    }

    /** The derived query on ownerEmail: every stored flow whose owner email
        equals the argument (null matching null), in an order the store
        chooses. */
    method FindByOwnerEmail(ownerEmail: Option<string>) returns (found: seq<FlowDoc>)
      requires Valid()
      ensures forall d :: d in found <==> d in docs.Values && d.ownerEmail == ownerEmail
      ensures forall i, j :: 0 <= i < j < |found| ==> found[i] != found[j]
    {
      var all := FindAll();
      found := [];
      var i := 0;
      while i < |all|
        invariant 0 <= i <= |all|
        invariant forall d :: d in found <==> d in all[..i] && d.ownerEmail == ownerEmail
        invariant forall p, q :: 0 <= p < q < |found| ==> found[p] != found[q]
      {
        assert all[..i + 1] == all[..i] + [all[i]];
        if all[i].ownerEmail == ownerEmail {
          assert all[i] !in all[..i];
          found := found + [all[i]];
        }
        i := i + 1;
      }
      assert all[..i] == all;
    }

    /** The query on userId that the services call but the repository
        interface does not declare. Assumed meaning: the ids of the flows
        owned by the user, in an order the store chooses; a string that is
        not an ObjectId matches no flow. */
    method FindByUserId(userId: string) returns (found: seq<string>)
      ensures forall i, j :: 0 <= i < j < |found| ==> found[i] != found[j]
      ensures ParseObjectId(userId).None? ==> found == []
      ensures ParseObjectId(userId).Some? ==>
                forall k :: k in found <==> k in FlowsOwnedBy(docs, ParseObjectId(userId).value)
    {
      found := [];
      var owner := ParseObjectId(userId);
      if owner.None? {
        return;
      }
      var left := FlowsOwnedBy(docs, owner.value);
      while left != {}
        invariant left <= FlowsOwnedBy(docs, owner.value)
        invariant forall k :: k in found <==> k in FlowsOwnedBy(docs, owner.value) && k !in left
        invariant forall i, j :: 0 <= i < j < |found| ==> found[i] != found[j]
        decreases |left|
      {
        var k :| k in left;
        found := found + [k];
        left := left - {k};
      }
    }
  }

  // ---------------------------------------------------------------------
  // Users
  // ---------------------------------------------------------------------

  /** No two stored users share an email (null included): registration
      checks it and nothing else writes a different email. */
  predicate UniqueEmails(docs: map<string, UserDoc>)
  {
    forall k1, k2 :: k1 in docs && k2 in docs && docs[k1].email == docs[k2].email ==> k1 == k2
  }

  /** Storing a user with `email` under `key` keeps emails unique. */
  predicate EmailAvailable(docs: map<string, UserDoc>, email: Option<string>, key: string)
  {
    forall k :: k in docs && k != key ==> docs[k].email != email
  }

  predicate UserValid(docs: map<string, UserDoc>)
  {
    (forall k :: k in docs ==> docs[k].id == Some(k)) && UniqueEmails(docs)
  }

  /** existsByEmail. */
  predicate EmailTaken(docs: map<string, UserDoc>, email: Option<string>)
  {
    exists k :: k in docs && docs[k].email == email
  }

  /** findByEmail: the one user with that email. */
  function UserByEmail(docs: map<string, UserDoc>, email: Option<string>): (u: Option<UserDoc>)
    requires UserValid(docs)
    ensures u.Some? <==> EmailTaken(docs, email)
    ensures u.Some? ==> u.value.email == email && u.value.id.Some? &&
                        u.value.id.value in docs && docs[u.value.id.value] == u.value
  {
    if EmailTaken(docs, email) then
      var k :| k in docs && docs[k].email == email;
      Some(docs[k])
    else None
  }

  class UserRepository {
    var docs: map<string, UserDoc>

    ghost predicate Valid()
      reads this
    {
      UserValid(docs)
    }

    constructor ()
      ensures docs == map[] && Valid()
    {
      docs := map[];
    }

    method ExistsByEmail(email: Option<string>) returns (b: bool)
      ensures b <==> EmailTaken(docs, email)
    {
      b := exists k :: k in docs && docs[k].email == email;
    }

    method FindByEmail(email: Option<string>) returns (user: Option<User>)
      requires Valid()
      ensures user.Some? <==> EmailTaken(docs, email)
      ensures user.Some? ==> fresh(user.value) && user.value.Doc() == UserByEmail(docs, email).value
    {
      var d := UserByEmail(docs, email);
      if d.Some? {
        var u := new User.FromDoc(d.value);
        user := Some(u);
      } else {
        user := None;
      }
    }

    method FindById(id: string) returns (user: Option<User>)
      ensures user.Some? <==> id in docs
      ensures user.Some? ==> fresh(user.value) && user.value.Doc() == docs[id]
    {
      if id in docs {
        var u := new User.FromDoc(docs[id]);
        user := Some(u);
      } else {
        user := None;
      }
    }

    /** Inserts or replaces by id; a user without an id gets `newId`. The
        caller guarantees the email stays unique. */
    method Save(user: User, newId: string) returns (saved: User)
      requires Valid()
      requires user.id.None? ==> FreshObjectId(newId, docs.Keys)
      requires EmailAvailable(docs, user.email, if user.id.Some? then user.id.value else newId)
      modifies this, user
      ensures Valid()
      ensures saved == user
      ensures user.id == (if old(user.id).Some? then old(user.id) else Some(newId))
      ensures user.Doc() == old(user.Doc()).(id := user.id)
      ensures docs == old(docs)[user.id.value := user.Doc()]
    {
      if user.id.None? {
        user.SetId(Some(newId));
      }
      docs := docs[user.id.value := user.Doc()];
      saved := user;
    }

    method DeleteById(id: string)
      requires Valid()
      modifies this
      ensures Valid()
      ensures docs == old(docs) - {id}
    {
      docs := docs - {id};
    }

    /** Removal by the entity's id; an entity without an id matches nothing. */
    method Delete(user: User)
      requires Valid()
      modifies this
      ensures Valid()
      ensures user.id.Some? ==> docs == old(docs) - {user.id.value}
      ensures user.id.None? ==> docs == old(docs)
    {
      if user.id.Some? {
        docs := docs - {user.id.value};
      }
    }
  }

  // ---------------------------------------------------------------------
  // Roles
  // ---------------------------------------------------------------------

  predicate RoleValid(docs: map<string, Role>)
  {
    (forall k :: k in docs ==> docs[k].id == Some(k)) &&
    (forall k1, k2 :: k1 in docs && k2 in docs && docs[k1].name == docs[k2].name ==> k1 == k2)
  }

  predicate NameTaken(docs: map<string, Role>, name: string)
  {
    exists k :: k in docs && docs[k].name == Some(name)
  }

  /** findByName: the one role with that name. */
  function RoleByName(docs: map<string, Role>, name: string): (r: Option<Role>)
    requires RoleValid(docs)
    ensures r.Some? <==> NameTaken(docs, name)
    ensures r.Some? ==> r.value.name == Some(name) && r.value.id.Some? &&
                        r.value.id.value in docs && docs[r.value.id.value] == r.value
  {
    if NameTaken(docs, name) then
      var k :| k in docs && docs[k].name == Some(name);
      Some(docs[k])
    else None
  }

  class RoleRepository {
    var docs: map<string, Role>

    ghost predicate Valid()
      reads this
    {
      RoleValid(docs)
    }

    constructor ()
      ensures docs == map[] && Valid()
    {
      docs := map[];
    }

    method ExistsByName(name: string) returns (b: bool)
      ensures b <==> NameTaken(docs, name)
    {
      b := exists k :: k in docs && docs[k].name == Some(name);
    }

    /** findByName: present exactly when a stored role has that name, and
        then it is that stored role. */
    method FindByName(name: string) returns (role: Option<Role>)
      requires Valid()
      ensures role.Some? <==> exists k :: k in docs && docs[k].name == Some(name)
      ensures role.Some? ==> role.value.name == Some(name) && role.value in docs.Values
      ensures role == RoleByName(docs, name)
    {
      role := RoleByName(docs, name);
    }

    /** Inserts or replaces by id; a role without an id gets `newId`. The
        caller guarantees the name stays unique. */
    method Save(role: Role, newId: string) returns (saved: Role)
      requires Valid()
      requires role.id.None? ==> FreshObjectId(newId, docs.Keys)
      requires forall k :: k in docs && Some(k) != (if role.id.Some? then role.id else Some(newId)) ==>
                 docs[k].name != role.name
      modifies this
      ensures Valid()
      ensures saved == role.(id := if role.id.Some? then role.id else Some(newId))
      ensures docs == old(docs)[saved.id.value := saved]
    {
      saved := role.(id := if role.id.Some? then role.id else Some(newId));
      docs := docs[saved.id.value := saved];
    }
  }

  // ---------------------------------------------------------------------
  // Flow errors
  // ---------------------------------------------------------------------

  /** findByFlowId: the errors of one flow (a null flow id matches errors
      without one), in natural order. */
  function ErrorsOfFlow(errors: seq<FlowError>, flowId: Option<string>): (r: seq<FlowError>)
    ensures forall e :: e in r <==> e in errors && e.flowId == flowId
    ensures IsSubsequence(r, errors)
    decreases |errors|
  {
    if errors == [] then []
    else
      var init, last := errors[..|errors| - 1], errors[|errors| - 1];
      var rest := ErrorsOfFlow(init, flowId);
      assert errors == init + [last];
      SubsequenceOfLonger(rest, init, last);
      if last.flowId == flowId then
        assert (rest + [last])[..|rest|] == rest;
        rest + [last]
      else rest
  }

  /** What remains after removing the errors of every flow id in `flowIds`. */
  function WithoutFlows(errors: seq<FlowError>, flowIds: set<Option<string>>): (r: seq<FlowError>)
    ensures forall e :: e in r <==> e in errors && e.flowId !in flowIds
    ensures IsSubsequence(r, errors)
    decreases |errors|
  {
    if errors == [] then []
    else
      var init, last := errors[..|errors| - 1], errors[|errors| - 1];
      var rest := WithoutFlows(init, flowIds);
      assert errors == init + [last];
      SubsequenceOfLonger(rest, init, last);
      if last.flowId !in flowIds then
        assert (rest + [last])[..|rest|] == rest;
        rest + [last]
      else rest
  }

  /** What remains after removing the error with id `id`. */
  function WithoutError(errors: seq<FlowError>, id: string): (r: seq<FlowError>)
    ensures forall e :: e in r <==> e in errors && e.id != Some(id)
    ensures IsSubsequence(r, errors)
    decreases |errors|
  {
    if errors == [] then []
    else
      var init, last := errors[..|errors| - 1], errors[|errors| - 1];
      var rest := WithoutError(init, id);
      assert errors == init + [last];
      SubsequenceOfLonger(rest, init, last);
      if last.id != Some(id) then
        assert (rest + [last])[..|rest|] == rest;
        rest + [last]
      else rest
  }

  /** Each error of the flow is kept as many times as it is stored. */
  lemma {:induction false} ErrorsOfFlowCount(errors: seq<FlowError>, flowId: Option<string>, e: FlowError)
    ensures multiset(ErrorsOfFlow(errors, flowId))[e] == if e.flowId == flowId then multiset(errors)[e] else 0
    decreases |errors|
  {
    if errors != [] {
      var init, last := errors[..|errors| - 1], errors[|errors| - 1];
      assert errors == init + [last];
      assert multiset(errors) == multiset(init) + multiset{last};
      if last.flowId == flowId {
        assert ErrorsOfFlow(errors, flowId) == ErrorsOfFlow(init, flowId) + [last];
      } else {
        assert ErrorsOfFlow(errors, flowId) == ErrorsOfFlow(init, flowId);
      }
      ErrorsOfFlowCount(init, flowId, e);
    }
  }

  /** Each error outside the removed flows is kept as many times as it is stored. */
  lemma {:induction false} WithoutFlowsCount(errors: seq<FlowError>, flowIds: set<Option<string>>, e: FlowError)
    ensures multiset(WithoutFlows(errors, flowIds))[e] == if e.flowId !in flowIds then multiset(errors)[e] else 0
    decreases |errors|
  {
    if errors != [] {
      var init, last := errors[..|errors| - 1], errors[|errors| - 1];
      assert errors == init + [last];
      assert multiset(errors) == multiset(init) + multiset{last};
      if last.flowId !in flowIds {
        assert WithoutFlows(errors, flowIds) == WithoutFlows(init, flowIds) + [last];
      } else {
        assert WithoutFlows(errors, flowIds) == WithoutFlows(init, flowIds);
      }
      WithoutFlowsCount(init, flowIds, e);
    }
  }

  /** Each error with another id is kept as many times as it is stored. */
  lemma {:induction false} WithoutErrorCount(errors: seq<FlowError>, id: string, e: FlowError)
    ensures multiset(WithoutError(errors, id))[e] == if e.id != Some(id) then multiset(errors)[e] else 0
    decreases |errors|
  {
    if errors != [] {
      var init, last := errors[..|errors| - 1], errors[|errors| - 1];
      assert errors == init + [last];
      assert multiset(errors) == multiset(init) + multiset{last};
      if last.id != Some(id) {
        assert WithoutError(errors, id) == WithoutError(init, id) + [last];
      } else {
        assert WithoutError(errors, id) == WithoutError(init, id);
      }
      WithoutErrorCount(init, id, e);
    }
  }

  /** The first error with id `id`, if any. */
  function ErrorById(errors: seq<FlowError>, id: string): (r: Option<FlowError>)
    ensures r.Some? <==> exists i :: 0 <= i < |errors| && errors[i].id == Some(id)
    ensures r.Some? ==> exists i :: 0 <= i < |errors| && errors[i] == r.value && r.value.id == Some(id) &&
                                    forall j :: 0 <= j < i ==> errors[j].id != Some(id)
    decreases |errors|
  {
    if errors == [] then None
    else if errors[0].id == Some(id) then Some(errors[0])
    else
      var r := ErrorById(errors[1..], id);
      assert forall i :: 0 < i < |errors| ==> errors[i] == errors[1..][i - 1];
      r
  }

  /** Removing the errors of one set of flows and then of another is
      removing those of both at once. */
  lemma {:induction false} WithoutFlowsTwice(errors: seq<FlowError>, a: set<Option<string>>, b: set<Option<string>>)
    ensures WithoutFlows(WithoutFlows(errors, a), b) == WithoutFlows(errors, a + b)
    decreases |errors|
  {
    if errors != [] {
      var init, last := errors[..|errors| - 1], errors[|errors| - 1];
      WithoutFlowsTwice(init, a, b);
      if last.flowId !in a {
        var once := WithoutFlows(errors, a);
        assert once == WithoutFlows(init, a) + [last];
        assert once[..|once| - 1] == WithoutFlows(init, a);
      }
    }
  }

  /** Removing nothing keeps every error. */
  lemma {:induction false} WithoutNoFlows(errors: seq<FlowError>)
    ensures WithoutFlows(errors, {}) == errors
    decreases |errors|
  {
    if errors != [] {
      WithoutNoFlows(errors[..|errors| - 1]);
      assert errors == errors[..|errors| - 1] + [errors[|errors| - 1]];
    }
  }

  class FlowErrorRepository {
    var errors: seq<FlowError>

    constructor (errors: seq<FlowError>)
      ensures this.errors == errors
    {
      this.errors := errors;
    }

    method FindByFlowId(flowId: Option<string>) returns (found: seq<FlowError>)
      ensures found == ErrorsOfFlow(errors, flowId)
    {
      found := ErrorsOfFlow(errors, flowId);
    }

    /** findById: the first error with that id. */
    method FindById(id: string) returns (error: Option<FlowError>)
      ensures error == ErrorById(errors, id)
    {
      error := None;
      var i := 0;
      while i < |errors|
        invariant 0 <= i <= |errors|
        invariant forall j :: 0 <= j < i ==> errors[j].id != Some(id)
        invariant ErrorById(errors[..i], id).None?
        invariant ErrorById(errors, id) == ErrorById(errors[i..], id)
      {
        if errors[i].id == Some(id) {
          return Some(errors[i]);
        }
        assert errors[i..][1..] == errors[i + 1..];
        i := i + 1;
      }
    }

    method DeleteById(id: string)
      modifies this
      ensures errors == WithoutError(old(errors), id)
    {
      errors := WithoutError(errors, id);
    }

    method DeleteByFlowId(flowId: Option<string>)
      modifies this
      ensures errors == WithoutFlows(old(errors), {flowId})
    {
      errors := WithoutFlows(errors, {flowId});
    }
  }
}
