/** Who may sign and who may invoke, as the roles of a governance say. */
module Roles {
  import opened Protocol
  import Quorum
  import Namespaces

  datatype Who = Id(text: string) | Name(name: string) | Members | All | NotMembers

  datatype SchemaRef = SchemaId(id: string) | NotGovernance | AllSchemas

  datatype Role = Role(who: Who, namespace: string, role: string, schema: SchemaRef)

  /** The members' keys, and the key each member's name stands for. */
  datatype MemberList = MemberList(ids: set<Key>, names: map<string, Key>)

  /** `KeyIdentifier::from_str` and `to_str`. */
  datatype KeyText = KeyText(parse: string -> Option<Key>, toText: Key -> string)

  ghost predicate TextInjective(t: KeyText) {
    forall a, b :: t.toText(a) == t.toText(b) ==> a == b
  }

  datatype Query = Query(stage: Stage, schemaId: string, namespace: string, isGov: bool)

  datatype RoleError = WrongStage | InvalidKey | InvalidName | RepeatedId | RepeatedName

  datatype Result<T> = Ok(value: T) | Err(error: RoleError)

  function ToRole(s: Stage): string {
    match s
    case Approve => "APPROVER"
    case Evaluate => "EVALUATOR"
    case Validate => "VALIDATOR"
    case Witness => "WITNESS"
    case Creation => "CREATOR"
    case Invoke => "ISSUER"
  }

  // ---- members ----

  datatype MemberRow = MemberRow(id: string, name: string)

  /** Names stand for members. */
  ghost predicate ListOk(m: MemberList) {
    forall n :: n in m.names ==> m.names[n] in m.ids
  }

  /** Among the first n rows every id is a key, and neither ids nor names repeat. */
  ghost predicate RowsOk(t: KeyText, rows: seq<MemberRow>, n: nat)
    requires n <= |rows|
  {
    && (forall i :: 0 <= i < n ==> t.parse(rows[i].id).Some?)
    && (forall i, j :: 0 <= i < j < n ==> t.parse(rows[i].id) != t.parse(rows[j].id) && rows[i].name != rows[j].name)
  }

  function ParsedIds(t: KeyText, rows: seq<MemberRow>, n: nat): set<Option<Key>>
    requires n <= |rows|
  {
    set i | 0 <= i < n :: t.parse(rows[i].id)
  }

  function RowNames(rows: seq<MemberRow>, n: nat): set<string>
    requires n <= |rows|
  {
    set i | 0 <= i < n :: rows[i].name
  }

  /** The list holds the first n rows and nothing else. */
  ghost predicate Lists(t: KeyText, rows: seq<MemberRow>, n: nat, m: MemberList)
    requires n <= |rows|
  {
    && (forall k :: k in m.ids <==> Some(k) in ParsedIds(t, rows, n))
    && m.names.Keys == RowNames(rows, n)
    && forall i :: 0 <= i < n ==> Some(m.names[rows[i].name]) == t.parse(rows[i].id)
  }

  lemma RowsOneMore(t: KeyText, rows: seq<MemberRow>, n: nat)
    requires n < |rows| && RowsOk(t, rows, n)
    requires t.parse(rows[n].id).Some? && t.parse(rows[n].id) !in ParsedIds(t, rows, n) && rows[n].name !in RowNames(rows, n)
    ensures RowsOk(t, rows, n + 1)
  {
    forall i | 0 <= i < n ensures t.parse(rows[i].id) != t.parse(rows[n].id) && rows[i].name != rows[n].name {
      assert t.parse(rows[i].id) in ParsedIds(t, rows, n);
      assert rows[i].name in RowNames(rows, n);
    }
  }

  lemma ListsOneMore(t: KeyText, rows: seq<MemberRow>, n: nat, m: MemberList, k: Key)
    requires n < |rows| && Lists(t, rows, n, m)
    requires t.parse(rows[n].id) == Some(k) && k !in m.ids && rows[n].name !in m.names
    ensures Lists(t, rows, n + 1, MemberList(m.ids + {k}, m.names[rows[n].name := k]))
  {
    var m' := MemberList(m.ids + {k}, m.names[rows[n].name := k]);
    assert ParsedIds(t, rows, n + 1) == ParsedIds(t, rows, n) + {Some(k)};
    assert RowNames(rows, n + 1) == RowNames(rows, n) + {rows[n].name};
    forall i | 0 <= i < n + 1 ensures Some(m'.names[rows[i].name]) == t.parse(rows[i].id) {
      if i < n { assert rows[i].name in RowNames(rows, n); }
    }
  }

  lemma ListedNamesAreMembers(t: KeyText, rows: seq<MemberRow>, m: MemberList)
    requires Lists(t, rows, |rows|, m)
    ensures ListOk(m)
  {
    forall name | name in m.names ensures m.names[name] in m.ids {
      var i :| 0 <= i < |rows| && rows[i].name == name;
      assert t.parse(rows[i].id) in ParsedIds(t, rows, |rows|);
    }
  }

  lemma FaultyRow(t: KeyText, rows: seq<MemberRow>, n: nat, m: MemberList)
    requires n < |rows| && Lists(t, rows, n, m)
    requires t.parse(rows[n].id).None? || t.parse(rows[n].id).value in m.ids || rows[n].name in m.names
    ensures !RowsOk(t, rows, |rows|)
  {
    if t.parse(rows[n].id).Some? && t.parse(rows[n].id).value in m.ids {
      assert t.parse(rows[n].id) in ParsedIds(t, rows, n);
    } else if rows[n].name in m.names {
      assert rows[n].name in RowNames(rows, n);
    }
  }

  /** `get_members_from_governance`. */
  method GetMembers(t: KeyText, rows: seq<MemberRow>) returns (r: Result<MemberList>)
    ensures r.Ok? <==> RowsOk(t, rows, |rows|)
    ensures r.Ok? ==> Lists(t, rows, |rows|, r.value) && ListOk(r.value)
  {
    var m := MemberList({}, map[]);
    for i := 0 to |rows|
      invariant RowsOk(t, rows, i) && Lists(t, rows, i, m)
    {
      var id := t.parse(rows[i].id);
      if id.None? || id.value in m.ids || rows[i].name in m.names { FaultyRow(t, rows, i, m); }
      if id.None? { return Err(InvalidKey); }
      if id.value in m.ids { return Err(RepeatedId); }
      if rows[i].name in m.names { return Err(RepeatedName); }
      RowsOneMore(t, rows, i);
      ListsOneMore(t, rows, i, m, id.value);
      m := MemberList(m.ids + {id.value}, m.names[rows[i].name := id.value]);
    }
    ListedNamesAreMembers(t, rows, m);
    r := Ok(m);
  }

  // ---- signers ----

  /** The role is about this stage, schema and namespace. */
  predicate Matches(role: Role, q: Query) {
    && role.role == ToRole(q.stage)
    && (match role.schema
        case SchemaId(id) => id == q.schemaId
        case NotGovernance => !q.isGov
        case AllSchemas => true)
    && Namespaces.Contains(role.namespace, q.namespace)
  }

  /** Whom a matching role lets sign. */
  function Granted(t: KeyText, who: Who, m: MemberList): set<Key> {
    match who
    case Id(text) => if t.parse(text).Some? && t.parse(text).value in m.ids then {t.parse(text).value} else {}
    case Name(name) => if name in m.names then {m.names[name]} else {}
    case Members => m.ids
    case All => m.ids
    case NotMembers => {}
  }

  /** A role that names a key or a member that does not exist. */
  predicate Faulty(t: KeyText, who: Who, m: MemberList) {
    match who
    case Id(text) => t.parse(text).None?
    case Name(name) => name !in m.names
    case _ => false
  }

  // ---- what a role means ----

  /** The name roles give to a stage. */
  predicate NamesStage(name: string, stage: Stage) {
    || (name == "APPROVER" && stage.Approve?) || (name == "EVALUATOR" && stage.Evaluate?)
    || (name == "VALIDATOR" && stage.Validate?) || (name == "WITNESS" && stage.Witness?)
    || (name == "CREATOR" && stage.Creation?) || (name == "ISSUER" && stage.Invoke?)
  }

  /** The role is for this schema, for every one, or for any but a governance's. */
  predicate ForSchema(role: Role, q: Query) {
    role.schema == SchemaId(q.schemaId) || role.schema.AllSchemas? || (role.schema.NotGovernance? && !q.isGov)
  }

  /** The subject's namespace is the role's own, or one below it: its segments begin with those of the role's. */
  predicate Above(namespace: string, subject: string) {
    namespace == "" || Namespaces.Segments(namespace) <= Namespaces.Segments(subject)
  }

  predicate About(role: Role, q: Query) {
    NamesStage(role.role, q.stage) && ForSchema(role, q) && Above(role.namespace, q.namespace)
  }

  /** The role is one under which this member signs. */
  predicate LetsSign(t: KeyText, role: Role, m: MemberList, k: Key) {
    k in m.ids &&
    ( || role.who.Members? || role.who.All?
      || (role.who.Id? && t.parse(role.who.text) == Some(k))
      || (role.who.Name? && role.who.name in m.names && m.names[role.who.name] == k))
  }

  /** The role is one under which this key creates or invokes, a member's or not. */
  predicate LetsInvoke(t: KeyText, role: Role, m: MemberList, k: Key) {
    || role.who.All?
    || (k !in m.ids && role.who.NotMembers?)
    || (k in m.ids &&
         ( || role.who.Members?
           || role.who == Id(t.toText(k))
           || (role.who.Name? && role.who.name in m.names && m.names[role.who.name] == k)))
  }

  /** Some role that is about the subject lets this member sign. */
  ghost predicate MaySign(t: KeyText, roles: seq<Role>, q: Query, m: MemberList, k: Key) {
    exists role :: role in roles && About(role, q) && LetsSign(t, role, m, k)
  }

  /** Some role that is about the subject lets this key create or invoke. */
  ghost predicate MayInvoke(t: KeyText, roles: seq<Role>, q: Query, m: MemberList, k: Key) {
    exists role :: role in roles && About(role, q) && LetsInvoke(t, role, m, k)
  }

  lemma MatchesExactly(role: Role, q: Query)
    ensures Matches(role, q) <==> About(role, q)
  {
    Namespaces.ContainsIsSegmentPrefix(role.namespace, q.namespace);
  }

  /** Who is granted: exactly those whom some role that is about the subject lets sign. */
  lemma GrantedExactly(t: KeyText, roles: seq<Role>, q: Query, m: MemberList, k: Key)
    requires ListOk(m)
    ensures GrantedBySome(t, roles, q, m, k) <==> MaySign(t, roles, q, m, k)
  {
    forall role | role in roles
      ensures Matches(role, q) && k in Granted(t, role.who, m) <==> About(role, q) && LetsSign(t, role, m, k)
    {
      MatchesExactly(role, q);
    }
    if MaySign(t, roles, q, m, k) {
      var role :| role in roles && About(role, q) && LetsSign(t, role, m, k);
      var i :| 0 <= i < |roles| && roles[i] == role;
    }
  }

  /** The role names a signer by a text that is no key, or by a name no member has. */
  predicate NamesNobody(t: KeyText, role: Role, m: MemberList) {
    (role.who.Id? && t.parse(role.who.text).None?) || (role.who.Name? && role.who.name !in m.names)
  }

  /** When the signers are not told: a role that is about the subject names nobody, and none before it lets all members sign. */
  lemma FaultExactly(t: KeyText, roles: seq<Role>, q: Query, m: MemberList)
    ensures FaultMet(t, roles, q, m) <==>
      exists i :: 0 <= i < |roles| && About(roles[i], q) && NamesNobody(t, roles[i], m)
                  && forall j :: 0 <= j < i && About(roles[j], q) ==> !roles[j].who.Members? && !roles[j].who.All?
  {
    forall role: Role ensures Matches(role, q) <==> About(role, q) { MatchesExactly(role, q); }
    if FaultMet(t, roles, q, m) {
      var i :| 0 <= i < |roles| && Matches(roles[i], q) && Faulty(t, roles[i].who, m) && forall j :: 0 <= j < i ==> !Stops(roles[j], q);
      assert About(roles[i], q) && NamesNobody(t, roles[i], m);
    }
  }

  /** A role for a namespace is for every namespace below it, however deep, and for none above it. */
  lemma RolesReachDown(role: Role, q: Query, more: string)
    requires Namespaces.Segments(role.namespace) == Namespaces.Segments(q.namespace)
    ensures Matches(role, q) ==> Matches(role, q.(namespace := q.namespace + "." + more))
    ensures !Matches(role.(namespace := role.namespace + "." + more), q)
  {
    var below := q.(namespace := q.namespace + "." + more);
    Namespaces.SegmentsOfDotted(q.namespace, more);
    MatchesExactly(role, q);
    MatchesExactly(role, below);
    Namespaces.SegmentsOfDotted(role.namespace, more);
    MatchesExactly(role.(namespace := role.namespace + "." + more), q);
  }

  ghost predicate GrantedBySome(t: KeyText, roles: seq<Role>, q: Query, m: MemberList, k: Key) {
    exists i :: 0 <= i < |roles| && Matches(roles[i], q) && k in Granted(t, roles[i].who, m)
  }

  /** The role lets every member sign, so that the loop ends there. */
  predicate Stops(role: Role, q: Query) {
    Matches(role, q) && (role.who.Members? || role.who.All?)
  }

  /** A faulty role is met before any that lets every member sign. */
  ghost predicate FaultMet(t: KeyText, roles: seq<Role>, q: Query, m: MemberList) {
    exists i :: 0 <= i < |roles| && Matches(roles[i], q) && Faulty(t, roles[i].who, m)
                && forall j :: 0 <= j < i ==> !Stops(roles[j], q)
  }

  lemma GrantedAreMembers(t: KeyText, who: Who, m: MemberList)
    requires ListOk(m)
    ensures Granted(t, who, m) <= m.ids
  {}

  /** `get_signers_aux`: whatever the order of the roles, those granted by some matching role, even though the loop
      returns early; it errs exactly when it meets a faulty role first. */
  method GetSignersAux(t: KeyText, roles: seq<Role>, q: Query, m: MemberList) returns (r: Result<set<Key>>)
    requires ListOk(m)
    ensures r.Err? <==> FaultMet(t, roles, q, m) || (roles != [] && (q.stage.Creation? || q.stage.Invoke?))
    ensures r.Ok? ==> forall k :: k in r.value <==> GrantedBySome(t, roles, q, m, k)
  {
    var signers: set<Key> := {};
    for i := 0 to |roles|
      invariant i > 0 ==> !q.stage.Creation? && !q.stage.Invoke?
      invariant forall k :: k in signers <==> GrantedBySome(t, roles[..i], q, m, k)
      invariant forall j :: 0 <= j < i ==> !Stops(roles[j], q) && !(Matches(roles[j], q) && Faulty(t, roles[j].who, m))
    {
      var role := roles[i];
      ghost var before := roles[..i];
      assert roles[..i + 1] == before + [role];
      if q.stage.Creation? || q.stage.Invoke? { return Err(WrongStage); }
      GrantedOneMore(t, before, role, q, m);
      if !Matches(role, q) { continue; }
      match role.who {
        case Id(text) =>
          var id := t.parse(text);
          if id.None? { return Err(InvalidKey); }
          if id.value !in m.ids { continue; }
          signers := signers + {id.value};
        case Name(name) =>
          if name !in m.names { return Err(InvalidName); }
          signers := signers + {m.names[name]};
        case Members =>
          AllMembersGranted(t, roles, i, q, m);
          return Ok(m.ids);
        case All =>
          AllMembersGranted(t, roles, i, q, m);
          return Ok(m.ids);
        case NotMembers =>
          continue;
      }
    }
    assert roles[..|roles|] == roles;
    r := Ok(signers);
  }

  lemma GrantedOneMore(t: KeyText, before: seq<Role>, role: Role, q: Query, m: MemberList)
    ensures forall k :: GrantedBySome(t, before + [role], q, m, k) <==>
      GrantedBySome(t, before, q, m, k) || (Matches(role, q) && k in Granted(t, role.who, m))
  {
    var roles := before + [role];
    forall k ensures GrantedBySome(t, roles, q, m, k) <==>
      GrantedBySome(t, before, q, m, k) || (Matches(role, q) && k in Granted(t, role.who, m))
    {
      if GrantedBySome(t, before, q, m, k) {
        var i :| 0 <= i < |before| && Matches(before[i], q) && k in Granted(t, before[i].who, m);
        assert roles[i] == before[i];
      }
      if Matches(role, q) && k in Granted(t, role.who, m) { assert roles[|before|] == role; }
    }
  }

  lemma AllMembersGranted(t: KeyText, roles: seq<Role>, i: nat, q: Query, m: MemberList)
    requires i < |roles| && Stops(roles[i], q) && ListOk(m)
    ensures forall k :: k in m.ids <==> GrantedBySome(t, roles, q, m, k)
  {
    forall k | GrantedBySome(t, roles, q, m, k) ensures k in m.ids {
      var j :| 0 <= j < |roles| && Matches(roles[j], q) && k in Granted(t, roles[j].who, m);
      GrantedAreMembers(t, roles[j].who, m);
    }
  }

  /** The order of the roles does not matter to what is granted. */
  lemma OrderDoesNotMatter(t: KeyText, roles: seq<Role>, others: seq<Role>, q: Query, m: MemberList, k: Key)
    requires multiset(roles) == multiset(others)
    ensures GrantedBySome(t, roles, q, m, k) <==> GrantedBySome(t, others, q, m, k)
  {
    if GrantedBySome(t, roles, q, m, k) {
      var i :| 0 <= i < |roles| && Matches(roles[i], q) && k in Granted(t, roles[i].who, m);
      assert roles[i] in multiset(others);
    }
    if GrantedBySome(t, others, q, m, k) {
      var i :| 0 <= i < |others| && Matches(others[i], q) && k in Granted(t, others[i].who, m);
      assert others[i] in multiset(roles);
    }
  }

  /** `get_signers`: never empty, because the governance's owner stands in. */
  method GetSigners(t: KeyText, roles: seq<Role>, q: Query, m: MemberList, owner: Key) returns (r: Result<set<Key>>)
    requires ListOk(m)
    ensures r.Ok? ==> r.value != {}
    ensures r.Ok? ==> forall k :: k in r.value <==>
      MaySign(t, roles, q, m, k) || (k == owner && forall j :: !MaySign(t, roles, q, m, j))
    ensures r.Err? <==> FaultMet(t, roles, q, m) || (roles != [] && (q.stage.Creation? || q.stage.Invoke?))
  {
    r := GetSignersAux(t, roles, q, m);
    ghost var granted := r;
    if r.Ok? && r.value == {} {
      assert forall j :: !GrantedBySome(t, roles, q, m, j) by {
        forall j ensures !GrantedBySome(t, roles, q, m, j) { assert j !in granted.value; }
      }
      r := Ok({owner});
    }
    forall k ensures GrantedBySome(t, roles, q, m, k) <==> MaySign(t, roles, q, m, k) {
      GrantedExactly(t, roles, q, m, k);
    }
  }

  // ---- invokers ----

  /** The role lets this key create or invoke. */
  predicate Invokes(t: KeyText, who: Who, m: MemberList, invoker: Key) {
    match who
    case Id(text) => invoker in m.ids && text == t.toText(invoker)
    case Name(name) => name in m.names && invoker in m.ids && m.names[name] == invoker
    case Members => invoker in m.ids
    case All => true
    case NotMembers => invoker !in m.ids
  }

  ghost predicate InvokedBySome(t: KeyText, roles: seq<Role>, q: Query, m: MemberList, invoker: Key) {
    exists i :: 0 <= i < |roles| && Matches(roles[i], q) && Invokes(t, roles[i].who, m, invoker)
  }

  /** Who may invoke: exactly those whom some role that is about the subject lets invoke. */
  lemma InvokedExactly(t: KeyText, roles: seq<Role>, q: Query, m: MemberList, k: Key)
    ensures InvokedBySome(t, roles, q, m, k) <==> MayInvoke(t, roles, q, m, k)
  {
    forall role | role in roles
      ensures Matches(role, q) && Invokes(t, role.who, m, k) <==> About(role, q) && LetsInvoke(t, role, m, k)
    {
      MatchesExactly(role, q);
    }
    if MayInvoke(t, roles, q, m, k) {
      var role :| role in roles && About(role, q) && LetsInvoke(t, role, m, k);
      var i :| 0 <= i < |roles| && roles[i] == role;
    }
  }

  /** An unknown name is met before any role that lets the invoker in. */
  ghost predicate UnknownNameMet(t: KeyText, roles: seq<Role>, q: Query, m: MemberList, invoker: Key) {
    exists i :: 0 <= i < |roles| && Matches(roles[i], q) && roles[i].who.Name? && roles[i].who.name !in m.names
                && forall j :: 0 <= j < i ==> !(Matches(roles[j], q) && Invokes(t, roles[j].who, m, invoker))
  }

  /** When it is not told who may invoke: a role that is about the subject names nobody, and none before it lets the key in. */
  lemma UnknownNameExactly(t: KeyText, roles: seq<Role>, q: Query, m: MemberList, k: Key)
    ensures UnknownNameMet(t, roles, q, m, k) <==>
      exists i :: 0 <= i < |roles| && About(roles[i], q) && roles[i].who.Name? && roles[i].who.name !in m.names
                  && forall j :: 0 <= j < i && About(roles[j], q) ==> !LetsInvoke(t, roles[j], m, k)
  {
    forall role: Role ensures Matches(role, q) <==> About(role, q) { MatchesExactly(role, q); }
    forall role: Role ensures Invokes(t, role.who, m, k) <==> LetsInvoke(t, role, m, k) {}
  }

  /** `issue_create_info`: true exactly when some matching role lets the invoker in. */
  method IssueCreateInfo(t: KeyText, roles: seq<Role>, q: Query, m: MemberList, invoker: Key) returns (r: Result<bool>)
    requires TextInjective(t)
    ensures r.Err? <==> UnknownNameMet(t, roles, q, m, invoker)
    ensures r.Ok? ==> (r.value <==> MayInvoke(t, roles, q, m, invoker))
  {
    InvokedExactly(t, roles, q, m, invoker);
    var isMember := invoker in m.ids;
    for i := 0 to |roles|
      invariant forall j :: 0 <= j < i ==> !(Matches(roles[j], q) && Invokes(t, roles[j].who, m, invoker))
      invariant forall j :: 0 <= j < i ==> !(Matches(roles[j], q) && roles[j].who.Name? && roles[j].who.name !in m.names)
    {
      var role := roles[i];
      if !Matches(role, q) { continue; }
      match role.who {
        case Id(text) =>
          if isMember && text == t.toText(invoker) { return Ok(true); }
        case Name(name) =>
          if name !in m.names { return Err(InvalidName); }
          if isMember && t.toText(m.names[name]) == t.toText(invoker) { return Ok(true); }
        case Members =>
          if isMember { return Ok(true); }
        case All =>
          return Ok(true);
        case NotMembers =>
          if !isMember { return Ok(true); }
      }
    }
    r := Ok(false);
  }

  // ---- quorums ----

  datatype QuorumRule = Majority | Fixed(fixed: nat) | Percentage(percentage: real)

  function Ceiling(x: real): int {
    -((-x).Floor)
  }

  /** The match at the end of `get_quorum`, with a percentage that is a real number. */
  function QuorumSize(rule: QuorumRule, signers: nat): int {
    match rule
    case Majority => Quorum.Majority(signers)
    case Fixed(fixed) => fixed
    case Percentage(p) => Ceiling(signers as real * p)
  }

  lemma NotNegative(a: real, b: real)
    requires a >= 0.0 && b >= 0.0
    ensures a * b >= 0.0
  {}

  /** A quorum that can be both reached and refused: always by majority, by a fixed number within the signers, by a
      fraction above zero and not above one. */
  lemma ReachableExactly(rule: QuorumRule, signers: nat)
    requires signers >= 1
    ensures 1 <= QuorumSize(rule, signers) <= signers <==>
      match rule
      case Majority => true
      case Fixed(fixed) => 1 <= fixed <= signers
      case Percentage(p) => 0.0 < p <= 1.0
  {
    if rule.Percentage? {
      var p, n := rule.percentage, signers as real;
      var x := n * p;
      if p <= 0.0 {
        assert x <= 0.0;
      } else if p <= 1.0 {
        NotNegative(n - 1.0, p);
        NotNegative(n, 1.0 - p);
        assert (n - 1.0) * p >= 0.0 && x == p + (n - 1.0) * p;
        assert n * (1.0 - p) >= 0.0 && x == n - n * (1.0 - p);
        assert 0.0 < x <= n;
      } else {
        NotNegative(n - 1.0, p - 1.0);
        assert n * (p - 1.0) == (p - 1.0) + (n - 1.0) * (p - 1.0);
        assert n * (p - 1.0) > 0.0 && x == n + n * (p - 1.0);
      }
    }
  }
}
