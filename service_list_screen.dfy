/** The visibility rules of src/screens/ServiceListScreen.tsx: the filter effect that
    narrows the service list step by step (role, search term, status, type) and the
    two filter toggles. */
module ServiceListScreen {
  import opened Types
  import opened Seqs

  /** A filter setting: `'all'` or one value. */
  datatype Choice<T> = All | Only(value: T)

  // ---- Case-insensitive substring search ----

  /** ASCII lowercasing of one character. */
  function LowerChar(c: char): char {
    if 'A' <= c <= 'Z' then (c as int + 32) as char else c
  }

  /** `toLowerCase()`, on ASCII letters. */
  function Lower(s: string): (r: string)
    ensures |r| == |s|
    ensures forall i :: 0 <= i < |s| ==> r[i] == LowerChar(s[i])
  {
    seq(|s|, i requires 0 <= i < |s| => LowerChar(s[i]))
  }

  /** `hay.includes(needle)`. */
  predicate Includes(hay: string, needle: string) {
    exists i :: 0 <= i <= |hay| - |needle| && OccursAt(hay, needle, i)
  }

  /** `needle` occurs in `hay` starting at index `i`. */
  predicate OccursAt(hay: string, needle: string, i: int) {
    0 <= i && i + |needle| <= |hay| && hay[i..i + |needle|] == needle
  }

  /** The empty term occurs in every string. */
  lemma IncludesEmpty(hay: string)
    ensures Includes(hay, "")
  {
    assert OccursAt(hay, "", 0);
  }

  // ---- The four predicates of the filter chain ----

  predicate IsCoordinator(user: Option<User>) {
    user.Some? && user.value.role == Coordinator
  }

  function IdOf(user: Option<User>): Option<string> {
    if user.Some? then Some(user.value.id) else None
  }

  /** `service.doctorId === user?.id || service.nurseId === user?.id`: with no user,
      both sides are undefined, so a service lacking either assignee passes. */
  predicate AssignedTo(s: Service, user: Option<User>) {
    s.doctorId == IdOf(user) || s.nurseId == IdOf(user)
  }

  predicate MatchesSearch(s: Service, term: string) {
    var t := Lower(term);
    Includes(Lower(s.patientName), t) || Includes(Lower(s.patientAddress), t) || Includes(Lower(s.notes), t)
  }

  /** The empty search term matches every service, so the `searchQuery` guard
      only skips work. */
  lemma EmptyTermMatchesAll(s: Service)
    ensures MatchesSearch(s, "")
  {
    assert Lower("") == "";
    IncludesEmpty(Lower(s.patientName));
  }

  predicate HasStatus(s: Service, st: ServiceStatus) {
    s.status == st
  }

  predicate HasType(s: Service, t: ServiceType) {
    s.serviceType == t
  }

  /** A service is listed when it passes every active predicate. */
  predicate Listed(s: Service, user: Option<User>, term: string,
                   statusFilter: Choice<ServiceStatus>, typeFilter: Choice<ServiceType>)
  {
    && (IsCoordinator(user) || AssignedTo(s, user))
    && (term == "" || MatchesSearch(s, term))
    && (statusFilter.All? || HasStatus(s, statusFilter.value))
    && (typeFilter.All? || HasType(s, typeFilter.value))
  }

  /** The filter effect: starts from all services and replaces the local list by a
      filtered copy once per active predicate. The result is exactly the services
      that pass every active predicate, in their original order. */
  method FilterServices(services: seq<Service>, user: Option<User>, term: string,
                        statusFilter: Choice<ServiceStatus>, typeFilter: Choice<ServiceType>)
    returns (filtered: seq<Service>)
    ensures filtered == Filter(services, (s: Service) => Listed(s, user, term, statusFilter, typeFilter))
    ensures IsSubsequence(filtered, services)
  {
    var roleOk := (s: Service) => IsCoordinator(user) || AssignedTo(s, user);
    var searchOk := (s: Service) => roleOk(s) && (term == "" || MatchesSearch(s, term));
    var statusOk := (s: Service) => searchOk(s) && (statusFilter.All? || HasStatus(s, statusFilter.value));
    var listed := (s: Service) => Listed(s, user, term, statusFilter, typeFilter);

    filtered := services;
    if !IsCoordinator(user) {
      filtered := Filter(filtered, (s: Service) => AssignedTo(s, user));
      FilterExtensional(services, (s: Service) => AssignedTo(s, user), roleOk);
    } else {
      FilterAllAccepted(services, roleOk);
    }
    assert filtered == Filter(services, roleOk);

    if term != "" {
      FilterTwice(services, roleOk, (s: Service) => MatchesSearch(s, term), searchOk);
      filtered := Filter(filtered, (s: Service) => MatchesSearch(s, term));
    } else {
      FilterExtensional(services, roleOk, searchOk);
    }
    assert filtered == Filter(services, searchOk);

    if statusFilter != All {
      FilterTwice(services, searchOk, (s: Service) => HasStatus(s, statusFilter.value), statusOk);
      filtered := Filter(filtered, (s: Service) => HasStatus(s, statusFilter.value));
    } else {
      FilterExtensional(services, searchOk, statusOk);
    }
    assert filtered == Filter(services, statusOk);

    if typeFilter != All {
      FilterTwice(services, statusOk, (s: Service) => HasType(s, typeFilter.value), listed);
      filtered := Filter(filtered, (s: Service) => HasType(s, typeFilter.value));
    } else {
      FilterExtensional(services, statusOk, listed);
    }
    FilterIsSubsequence(services, listed);
  }

  /** A coordinator with no search and both filters on 'all' sees every service. */
  lemma CoordinatorSeesAll(services: seq<Service>, user: Option<User>)
    requires IsCoordinator(user)
    ensures Filter(services, (s: Service) => Listed(s, user, "", All, All)) == services
  {
    FilterAllAccepted(services, (s: Service) => Listed(s, user, "", All, All));
  }

  /** What each active predicate guarantees about every listed service. */
  lemma ListedGuarantees(services: seq<Service>, user: Option<User>, term: string,
                         statusFilter: Choice<ServiceStatus>, typeFilter: Choice<ServiceType>, i: nat)
    requires i < |Filter(services, (s: Service) => Listed(s, user, term, statusFilter, typeFilter))|
    ensures var s := Filter(services, (s: Service) => Listed(s, user, term, statusFilter, typeFilter))[i];
      && s in services
      && (!IsCoordinator(user) && user.Some? ==> s.doctorId == Some(user.value.id) || s.nurseId == Some(user.value.id))
      && (user.None? ==> s.doctorId.None? || s.nurseId.None?)
      && (term != "" ==> MatchesSearch(s, term))
      && (statusFilter.Only? ==> s.status == statusFilter.value)
      && (typeFilter.Only? ==> s.serviceType == typeFilter.value)
  {
  }

  /** A service passing every active predicate is listed. */
  lemma ListedComplete(services: seq<Service>, user: Option<User>, term: string,
                       statusFilter: Choice<ServiceStatus>, typeFilter: Choice<ServiceType>, s: Service)
    requires s in services && Listed(s, user, term, statusFilter, typeFilter)
    ensures s in Filter(services, (s: Service) => Listed(s, user, term, statusFilter, typeFilter))
  {
    FilterMembership(services, (s: Service) => Listed(s, user, term, statusFilter, typeFilter), s);
  }

  // ---- The filter toggles ----

  /** The Status button: 'all' becomes 'requested', anything else becomes 'all'. */
  function ToggleStatus(f: Choice<ServiceStatus>): (r: Choice<ServiceStatus>)
    ensures f.All? ==> r == Only(Requested)
    ensures f.Only? ==> r.All?
  {
    if f == All then Only(Requested) else All
  }

  /** The Type button: 'all' becomes 'basic-transport', anything else becomes 'all'. */
  function ToggleType(f: Choice<ServiceType>): (r: Choice<ServiceType>)
    ensures f.All? ==> r == Only(BasicTransport)
    ensures f.Only? ==> r.All?
  {
    if f == All then Only(BasicTransport) else All
  }

  /** Pressing a toggle twice from 'all' returns to 'all'. */
  lemma TogglesAlternate()
    ensures ToggleStatus(ToggleStatus(All)) == All
    ensures ToggleType(ToggleType(All)) == All
  {
  }
}
