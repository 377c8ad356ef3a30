/**
 * Argument checking and request building in the identity service
 * (src/main/ts/identity/IdentityService.ts). The requests themselves are
 * remote calls; here each operation ends in the request it would send, or in
 * the rejection or exception it produces first.
 *
 * The mapping from a user field name to its protocol code
 * (`toUserFieldCode`) lives outside this file and is a parameter `toCode`.
 */
module Identity {
  import opened Wrappers

  /** The user fields a search may name. */
  const VALID_SEARCH_FIELDS: seq<string> := ["username", "email", "firstName", "lastName", "displayName"]

  const DEFAULT_ORDER_FIELD := "username"
  const INVALID_FIELD_ERROR := "Invalid user search field: "
  const NO_FIELDS_ERROR := "Must specify at least one field to search"
  const NO_TERM_ERROR := "Must specify a search term"
  const NO_USER_ID_ERROR := "Must specify a user id."
  const USER_LOOKUP_ERROR := "Error getting user."

  /** `Array.prototype.indexOf`: the first position of `x`, or -1. */
  function IndexOf<T(==)>(xs: seq<T>, x: T): (r: int)
    ensures r < 0 <==> x !in xs
    ensures r == -1 || (0 <= r < |xs| && xs[r] == x)
    ensures forall k :: 0 <= k < |xs| && k < r ==> xs[k] != x
    ensures 0 <= r ==> forall k :: 0 <= k < |xs| && xs[k] == x ==> r <= k
  {
    if xs == [] then -1
    else if xs[0] == x then 0
    else
      var rest := IndexOf(xs[1..], x);
      if rest < 0 then -1 else rest + 1
  }

  /** The code of every field, in order. */
  function Codes(fields: seq<string>, toCode: string -> int): (codes: seq<int>)
    ensures |codes| == |fields|
    ensures forall i :: 0 <= i < |fields| ==> codes[i] == toCode(fields[i])
  {
    seq(|fields|, i requires 0 <= i < |fields| => toCode(fields[i]))
  }

  /** Codes listed in the order in which they first occur in `codes`, so never twice. */
  predicate OrderedByFirstOccurrence(codes: seq<int>, r: seq<int>)
  {
    forall i, j :: 0 <= i < j < |r| ==> IndexOf(codes, r[i]) < IndexOf(codes, r[j])
  }

  predicate NoDuplicates(r: seq<int>)
  {
    forall i, j :: 0 <= i < j < |r| ==> r[i] != r[j]
  }

  /** What `_processSearchFields` returns for valid fields: each distinct code once, in first-occurrence order. */
  ghost predicate SearchFieldCodes(fields: seq<string>, toCode: string -> int, r: seq<int>)
  {
    var codes := Codes(fields, toCode);
    && (forall c :: c in r <==> c in codes)
    && OrderedByFirstOccurrence(codes, r)
  }

  /** The position of the first field that is not a valid search field. */
  predicate FirstInvalid(fields: seq<string>, k: int)
  {
    0 <= k < |fields| && fields[k] !in VALID_SEARCH_FIELDS
    && forall i :: 0 <= i < k ==> fields[i] in VALID_SEARCH_FIELDS
  }

  /**
   * `_processSearchFields`: throws on the first field that is not a valid
   * search field; otherwise lists the field codes without repeats.
   */
  method ProcessSearchFields(fields: seq<string>, toCode: string -> int) returns (r: Result<seq<int>>)
    ensures r.Success? <==> forall f :: f in fields ==> f in VALID_SEARCH_FIELDS
    ensures r.Failure? ==> exists k :: FirstInvalid(fields, k) && r.error == INVALID_FIELD_ERROR + fields[k]
    ensures r.Success? ==> SearchFieldCodes(fields, toCode, r.value) && NoDuplicates(r.value)
  {
    ghost var codes := Codes(fields, toCode);
    var result: seq<int> := [];
    var i := 0;
    while i < |fields|
      invariant 0 <= i <= |fields|
      invariant forall k :: 0 <= k < i ==> fields[k] in VALID_SEARCH_FIELDS
      invariant forall c :: c in result <==> c in codes[..i]
      invariant OrderedByFirstOccurrence(codes, result)
    {
      var field := fields[i];
      if field !in VALID_SEARCH_FIELDS {
        assert FirstInvalid(fields, i);
        return Failure(INVALID_FIELD_ERROR + field);
      }
      var fieldCode := toCode(field);
      assert codes[..i + 1] == codes[..i] + [fieldCode];
      if IndexOf(result, fieldCode) < 0 {
        assert IndexOf(codes, fieldCode) == i by {
          assert fieldCode !in codes[..i];
          assert forall k :: 0 <= k < i ==> codes[k] == codes[..i][k];
        }
        forall c | c in result ensures IndexOf(codes, c) < i {
          var k :| 0 <= k < i && codes[..i][k] == c;
          assert codes[k] == c;
        }
        result := result + [fieldCode];
      }
      i := i + 1;
    }
    assert codes[..i] == codes;
    assert forall f :: f in fields ==> exists k :: 0 <= k < |fields| && fields[k] == f;
    return Success(result);
  }

  lemma SameElementsSameEmptiness(a: seq<int>, b: seq<int>)
    requires forall x :: x in a <==> x in b
    ensures a == [] <==> b == []
  {
    if a != [] {
      var x := a[0];
      assert x in a;
    }
    if b != [] {
      var y := b[0];
      assert y in b;
    }
  }

  lemma SameElementsHeads(a: seq<int>, b: seq<int>)
    requires forall x :: x in a <==> x in b
    requires a != [] && b != []
    ensures a[0] in b && b[0] in a
  {
    var x, y := a[0], b[0];
    assert x in a && y in b;
    assert x in b && y in a;
  }

  /** Of two ordered lists holding each other's heads, the heads agree. */
  lemma OrderedHeadsEqual(codes: seq<int>, a: seq<int>, b: seq<int>)
    requires a != [] && b != [] && a[0] in b && b[0] in a && a[0] in codes
    requires OrderedByFirstOccurrence(codes, a) && OrderedByFirstOccurrence(codes, b)
    ensures a[0] == b[0]
  {
    var i :| 0 <= i < |a| && a[i] == b[0];
    assert IndexOf(codes, a[0]) <= IndexOf(codes, b[0]);
    var j :| 0 <= j < |b| && b[j] == a[0];
    assert IndexOf(codes, b[0]) <= IndexOf(codes, a[0]);
    var k := IndexOf(codes, a[0]);
    assert codes[k] == a[0] && codes[k] == b[0];
  }

  /** Dropping a common head from two ordered lists of the same elements leaves the same elements. */
  lemma OrderedTailsSameElements(codes: seq<int>, a: seq<int>, b: seq<int>)
    requires a != [] && b != [] && a[0] == b[0]
    requires forall x :: x in a <==> x in b
    requires OrderedByFirstOccurrence(codes, a) && OrderedByFirstOccurrence(codes, b)
    ensures forall x :: x in a[1..] <==> x in b[1..]
  {
    forall x ensures x in a[1..] ==> x in b[1..] {
      if x in a[1..] {
        var i :| 1 <= i < |a| && a[i] == x;
        assert x != a[0];
        assert x in a;
        assert x in b;
        var j :| 0 <= j < |b| && b[j] == x;
        assert j != 0;
        assert b[1..][j - 1] == x;
      }
    }
    forall x ensures x in b[1..] ==> x in a[1..] {
      if x in b[1..] {
        var j :| 1 <= j < |b| && b[j] == x;
        assert x != b[0];
        assert x in b;
        assert x in a;
        var i :| 0 <= i < |a| && a[i] == x;
        assert i != 0;
        assert a[1..][i - 1] == x;
      }
    }
  }

  /** Two lists of the same codes, both ordered by first occurrence, are equal: the order fixes the result. */
  lemma {:induction false} FirstOccurrenceOrderIsUnique(codes: seq<int>, a: seq<int>, b: seq<int>)
    requires forall x :: x in a ==> x in codes
    requires forall x :: x in a <==> x in b
    requires OrderedByFirstOccurrence(codes, a) && OrderedByFirstOccurrence(codes, b)
    ensures a == b
    decreases |a|
  {
    SameElementsSameEmptiness(a, b);
    if a != [] && b != [] {
      SameElementsHeads(a, b);
      var x := a[0];
      assert x in a;
      OrderedHeadsEqual(codes, a, b);
      OrderedTailsSameElements(codes, a, b);
      FirstOccurrenceOrderIsUnique(codes, a[1..], b[1..]);
      assert a == [a[0]] + a[1..] && b == [b[0]] + b[1..];
    }
  }

  /** The search-field codes are determined by the fields: any two lists meeting the description are equal. */
  lemma SearchFieldCodesAreDetermined(fields: seq<string>, toCode: string -> int, a: seq<int>, b: seq<int>)
    requires SearchFieldCodes(fields, toCode, a) && SearchFieldCodes(fields, toCode, b)
    ensures a == b
  {
    FirstOccurrenceOrderIsUnique(Codes(fields, toCode), a, b);
  }

  // ---------------------------------------------------------------------------
  // search
  // ---------------------------------------------------------------------------

  /** `query.fields`: absent (undefined or null), a single field name, or an array of them. */
  datatype FieldsArgument = FieldsMissing | OneField(field: string) | FieldList(fields: seq<string>)

  datatype OrderBy = OrderBy(field: Option<string>, ascending: Option<bool>)

  datatype UserQuery = UserQuery(
    fields: FieldsArgument, term: Option<string>, offset: Option<int>, limit: Option<int>,
    orderBy: Option<OrderBy>)

  datatype UserSearchRequest = UserSearchRequest(
    fields: seq<int>, value: string, offset: Option<int>, limit: Option<int>,
    orderField: int, ascending: Option<bool>)

  /** A rejected promise, an exception thrown by the call itself, or the request sent. */
  datatype SearchOutcome = SearchRejected(error: string) | SearchThrew(error: string) | SearchSent(request: UserSearchRequest)

  predicate NoFieldsGiven(fields: FieldsArgument)
  {
    fields.FieldsMissing? || fields == FieldList([])
  }

  /** The field list searched: a single field becomes a one-element list. */
  function FieldNames(fields: FieldsArgument): (names: seq<string>)
    requires !fields.FieldsMissing?
    ensures fields.OneField? ==> names == [fields.field]
    ensures fields.FieldList? ==> names == fields.fields
  {
    match fields
    case OneField(f) => [f]
    case FieldList(fs) => fs
  }

  /** The order used when none is given: by username, ascending. */
  function EffectiveOrderBy(orderBy: Option<OrderBy>): (o: OrderBy)
    ensures orderBy.Some? ==> o == orderBy.value
    ensures orderBy.None? ==> o.field == Some(DEFAULT_ORDER_FIELD) && o.ascending == Some(true)
  {
    if orderBy.Some? then orderBy.value else OrderBy(Some(DEFAULT_ORDER_FIELD), Some(true))
  }

  /** The field ordered on: a missing or empty (falsy) name means username. */
  function OrderFieldName(o: OrderBy): (name: string)
    ensures name == DEFAULT_ORDER_FIELD || (o.field.Some? && name == o.field.value)
    ensures o.field.Some? && o.field.value != "" ==> name == o.field.value
  {
    if o.field.Some? && o.field.value != "" then o.field.value else DEFAULT_ORDER_FIELD
  }

  /**
   * `search`: rejects without fields, then without a term; throws on an
   * invalid field; otherwise sends the field codes, the term, paging and the
   * ordering (username ascending unless given).
   */
  method Search(query: UserQuery, toCode: string -> int) returns (r: SearchOutcome)
    ensures NoFieldsGiven(query.fields) ==> r == SearchRejected(NO_FIELDS_ERROR)
    ensures !NoFieldsGiven(query.fields) && query.term.None? ==> r == SearchRejected(NO_TERM_ERROR)
    ensures r.SearchThrew? <==>
      (!NoFieldsGiven(query.fields) && query.term.Some?
       && exists f :: f in FieldNames(query.fields) && f !in VALID_SEARCH_FIELDS)
    ensures r.SearchRejected? ==> NoFieldsGiven(query.fields) || query.term.None?
    ensures r.SearchThrew? ==>
      exists k :: FirstInvalid(FieldNames(query.fields), k) && r.error == INVALID_FIELD_ERROR + FieldNames(query.fields)[k]
    ensures r.SearchSent? ==>
      (var o := EffectiveOrderBy(query.orderBy);
       && !NoFieldsGiven(query.fields) && query.term.Some?
       && SearchFieldCodes(FieldNames(query.fields), toCode, r.request.fields)
       && NoDuplicates(r.request.fields)
       && r.request.value == query.term.value
       && r.request.offset == query.offset && r.request.limit == query.limit
       && r.request.orderField == toCode(OrderFieldName(o))
       && r.request.ascending == o.ascending)
  {
    if NoFieldsGiven(query.fields) {
      return SearchRejected(NO_FIELDS_ERROR);
    }
    if query.term.None? {
      return SearchRejected(NO_TERM_ERROR);
    }
    var fields := FieldNames(query.fields);
    var orderBy := EffectiveOrderBy(query.orderBy);
    var fieldCodes := ProcessSearchFields(fields, toCode);
    if fieldCodes.Failure? {
      return SearchThrew(fieldCodes.error);
    }
    var request := UserSearchRequest(
      fieldCodes.value, query.term.value, query.offset, query.limit,
      toCode(OrderFieldName(orderBy)), orderBy.ascending);
    return SearchSent(request);
  }

  // ---------------------------------------------------------------------------
  // users and user
  // ---------------------------------------------------------------------------

  datatype DomainUserType = Normal | Anonymous | Convergence

  datatype DomainUserId = DomainUserId(userType: DomainUserType, username: string)

  /** A username string stands for a normal user. */
  datatype DomainUserIdentifier = Username(name: string) | Id(id: DomainUserId)

  function Normalize(u: DomainUserIdentifier): (id: DomainUserId)
    ensures u.Username? ==> id == DomainUserId(Normal, u.name)
    ensures u.Id? ==> id == u.id
  {
    match u
    case Username(name) => DomainUserId(Normal, name)
    case Id(id) => id
  }

  /** `users`: resolves to an empty list at once, or sends a request for the normalised ids. */
  datatype UsersOutcome = ResolvedEmpty | UsersRequested(userIds: seq<DomainUserId>)

  function Users(users: seq<DomainUserIdentifier>): (r: UsersOutcome)
    ensures r.ResolvedEmpty? <==> users == []
    ensures r.UsersRequested? ==>
      (|r.userIds| == |users| && forall i :: 0 <= i < |users| ==> r.userIds[i] == Normalize(users[i]))
  {
    if users == [] then ResolvedEmpty
    else UsersRequested(seq(|users|, i requires 0 <= i < |users| => Normalize(users[i])))
  }

  /** Every user asked for by name is requested as a normal user of that name. */
  lemma UsersRequestsNamedUsers(users: seq<DomainUserIdentifier>, name: string)
    requires Username(name) in users
    ensures Users(users).UsersRequested? && DomainUserId(Normal, name) in Users(users).userIds
  {
    var i :| 0 <= i < |users| && users[i] == Username(name);
    assert Users(users).userIds[i] == Normalize(users[i]);
  }

  /** `user`: rejects a missing id, otherwise looks up that one user. */
  function UserRequest(userId: Option<DomainUserIdentifier>): (r: Result<UsersOutcome>)
    ensures r.Failure? <==> userId.None?
    ensures r.Failure? ==> r.error == NO_USER_ID_ERROR
    ensures r.Success? ==> r.value == UsersRequested([Normalize(userId.value)])
  {
    if userId.None? then Failure(NO_USER_ID_ERROR) else Success(Users([userId.value]))
  }

  /** `user`, on the looked-up list: none is undefined, one is that user, more is an error. */
  function UserFromResults<U>(users: seq<U>): (r: Result<Option<U>>)
    ensures r.Success? <==> |users| <= 1
    ensures r.Failure? ==> r.error == USER_LOOKUP_ERROR
    ensures r.Success? ==> (r.value.None? <==> users == [])
    ensures r.Success? && r.value.Some? ==> users == [r.value.value]
  {
    if |users| == 0 then Success(None)
    else if |users| == 1 then Success(Some(users[0]))
    else Failure(USER_LOOKUP_ERROR)
  }
}
