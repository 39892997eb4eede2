/** Authorization records: what makes one valid and what it grants. */
module Permissions {
  import opened Wrappers
  import opened Text

  datatype Operation = Read | Write | Delete | Provide | Store | ReadEncrypted | WriteEncrypted

  datatype Role =
    | ReadRole(pattern: string)
    | WriteRole(pattern: string)
    | ReadEncryptedRole(pattern: string)
    | WriteEncryptedRole(pattern: string)
    | AdminRole

  datatype PermissionOperation = MayRead | MayWrite | MayReadEncrypted | MayWriteEncrypted | MayAdmin

  datatype Permission = Permission(namespace: Option<string>, operations: seq<PermissionOperation>)

  datatype AuthRecord = AuthRecord(clientId: string, name: string, roles: seq<Role>, permissions: seq<Permission>,
                                   enabled: bool)

  datatype AuthError = Failed | Invalid

  const MAX_AUTH_PERMISSIONS: nat := 256

  // ---- conversion, as the source does it ------------------------------------------------------------

  function RoleFor(operation: PermissionOperation, namespace: string): Role {
    match operation
    case MayRead => ReadRole(namespace)
    case MayWrite => WriteRole(namespace)
    case MayReadEncrypted => ReadEncryptedRole(namespace)
    case MayWriteEncrypted => WriteEncryptedRole(namespace)
    case MayAdmin => AdminRole
  }

  function RolesFor(operations: seq<PermissionOperation>, namespace: string): seq<Role> {
    seq(|operations|, i requires 0 <= i < |operations| => RoleFor(operations[i], namespace))
  }

  predicate HasDuplicates(operations: seq<PermissionOperation>) {
    exists i, j | 0 <= i < j < |operations| :: operations[i] == operations[j]
  }

  function IntoRoles(p: Permission): Result<seq<Role>, AuthError> {
    if p.operations == [] || HasDuplicates(p.operations) then Err(Invalid)
    else if MayAdmin in p.operations then
      if |p.operations| != 1 || p.namespace.Some? then Err(Invalid) else Ok([AdminRole])
    else if p.namespace.None? || IsBlank(p.namespace.value) then Err(Invalid)
    else Ok(RolesFor(p.operations, p.namespace.value))
  }

  function AllRoles(permissions: seq<Permission>): Result<seq<Role>, AuthError> {
    if permissions == [] then Ok([])
    else
      match (IntoRoles(permissions[0]), AllRoles(permissions[1..]))
      case (Ok(first), Ok(rest)) => Ok(first + rest)
      case (Err(e), _) => Err(e)
      case (_, Err(e)) => Err(e)
  }

  function OperationCount(permissions: seq<Permission>): nat {
    if permissions == [] then 0 else |permissions[0].operations| + OperationCount(permissions[1..])
  }

  /** The roles of `AuthRecord::into_info`. */
  function IntoInfo(record: AuthRecord): Result<seq<Role>, AuthError> {
    if IsBlank(record.clientId) || IsBlank(record.name) then Err(Invalid)
    else if !record.enabled then Err(Failed)
    else if |record.permissions| > MAX_AUTH_PERMISSIONS then Err(Invalid)
    else if |record.roles| + OperationCount(record.permissions) > MAX_AUTH_PERMISSIONS then Err(Invalid)
    else
      match AllRoles(record.permissions)
      case Err(e) => Err(e)
      case Ok(roles) => Ok(record.roles + roles)
  }

  // ---- roles ------------------------------------------------------------------------------------------

  predicate PermissionMatches(pattern: string, namespace: string) {
    if EndsWithStar(pattern) then StartsWith(namespace, BeforeStar(pattern))
    else
      || namespace == pattern
      || (StartsWith(namespace, pattern)
          && (StartsWith(namespace[|pattern|..], "/") || StartsWith(namespace[|pattern|..], "::")))
  }

  predicate RoleAllows(role: Role, namespace: string, operation: Operation) {
    match role
    case AdminRole => true
    case ReadRole(pattern) => operation == Read && PermissionMatches(pattern, namespace)
    case WriteRole(pattern) => operation in {Write, Delete, Provide, Store} && PermissionMatches(pattern, namespace)
    case ReadEncryptedRole(pattern) => operation == ReadEncrypted && PermissionMatches(pattern, namespace)
    case WriteEncryptedRole(pattern) => operation == WriteEncrypted && PermissionMatches(pattern, namespace)
  }

  predicate RolesAllow(roles: seq<Role>, namespace: string, operation: Operation) {
    exists i | 0 <= i < |roles| :: RoleAllows(roles[i], namespace, operation)
  }

  // ---- what a record means, without the conversion ---------------------------------------------------

  predicate ValidPermission(p: Permission) {
    && p.operations != [] && !HasDuplicates(p.operations)
    && (if p.namespace.Some? then MayAdmin !in p.operations && !IsBlank(p.namespace.value)
        else p.operations == [MayAdmin])
  }

  /** A record that opens a session. */
  predicate ValidRecord(record: AuthRecord) {
    && !IsBlank(record.clientId) && !IsBlank(record.name) && record.enabled
    && |record.roles| + OperationCount(record.permissions) <= MAX_AUTH_PERMISSIONS
    && forall i | 0 <= i < |record.permissions| :: ValidPermission(record.permissions[i])
  }

  /** The permission that an operation on a namespace needs. */
  predicate Needs(operation: Operation, permitted: PermissionOperation) {
    match permitted
    case MayRead => operation == Read
    case MayWrite => operation in {Write, Delete, Provide, Store}
    case MayReadEncrypted => operation == ReadEncrypted
    case MayWriteEncrypted => operation == WriteEncrypted
    case MayAdmin => true
  }

  /** The namespaces that a permission names: with a trailing star, those that start with the text
      before it; otherwise the namespace itself, those below it and its contexts. */
  ghost predicate Reaches(pattern: string, namespace: string) {
    if EndsWithStar(pattern) then exists prefix, rest :: pattern == prefix + "*" && namespace == prefix + rest
    else
      || namespace == pattern
      || (exists rest :: namespace == pattern + "/" + rest)
      || (exists rest :: namespace == pattern + "::" + rest)
  }

  ghost predicate PermissionGrants(p: Permission, namespace: string, operation: Operation) {
    exists i | 0 <= i < |p.operations| ::
      && Needs(operation, p.operations[i])
      && (p.operations[i] == MayAdmin || (p.namespace.Some? && Reaches(p.namespace.value, namespace)))
  }

  /** What a stored role is a permission for, and on which namespaces. */
  function Permitted(role: Role): (PermissionOperation, Option<string>) {
    match role
    case AdminRole => (MayAdmin, None)
    case ReadRole(pattern) => (MayRead, Some(pattern))
    case WriteRole(pattern) => (MayWrite, Some(pattern))
    case ReadEncryptedRole(pattern) => (MayReadEncrypted, Some(pattern))
    case WriteEncryptedRole(pattern) => (MayWriteEncrypted, Some(pattern))
  }

  ghost predicate RoleGrants(role: Role, namespace: string, operation: Operation) {
    && Needs(operation, Permitted(role).0)
    && (Permitted(role).1.Some? ==> Reaches(Permitted(role).1.value, namespace))
  }

  ghost predicate Grants(record: AuthRecord, namespace: string, operation: Operation) {
    || (exists i | 0 <= i < |record.roles| :: RoleGrants(record.roles[i], namespace, operation))
    || (exists i | 0 <= i < |record.permissions| :: PermissionGrants(record.permissions[i], namespace, operation))
  }

  /** A trailing star stands for any continuation of the text before it. */
  lemma StarPermissionCovers(prefix: string, namespace: string)
    ensures PermissionMatches(prefix + "*", namespace) <==> StartsWith(namespace, prefix)
  {
    assert BeforeStar(prefix + "*") == prefix;
  }

  lemma Continues(text: string, start: string)
    ensures StartsWith(text, start) <==> exists rest :: text == start + rest
  {
    if StartsWith(text, start) { assert text == start + text[|start|..]; }
    if rest :| text == start + rest { assert text[..|start|] == start; }
  }

  lemma MatchesIffReaches(pattern: string, namespace: string)
    ensures PermissionMatches(pattern, namespace) <==> Reaches(pattern, namespace)
  {
    if EndsWithStar(pattern) {
      var prefix := BeforeStar(pattern);
      assert pattern == prefix + "*";
      StarPermissionCovers(prefix, namespace);
      Continues(namespace, prefix);
      assert forall p :: pattern == p + "*" ==> p == (p + "*")[..|p|] == prefix;
    } else {
      PlainPermissionCovers(pattern, namespace);
      Continues(namespace, pattern + "/");
      Continues(namespace, pattern + "::");
    }
  }

  lemma RolesGrant(roles: seq<Role>, namespace: string, operation: Operation)
    ensures RolesAllow(roles, namespace, operation)
            <==> exists i | 0 <= i < |roles| :: RoleGrants(roles[i], namespace, operation)
  {
    forall i | 0 <= i < |roles|
      ensures RoleAllows(roles[i], namespace, operation) <==> RoleGrants(roles[i], namespace, operation)
    {
      if Permitted(roles[i]).1.Some? { MatchesIffReaches(Permitted(roles[i]).1.value, namespace); }
    }
  }

  lemma IntoRolesMeaning(p: Permission, namespace: string, operation: Operation)
    ensures IntoRoles(p).Ok? <==> ValidPermission(p)
    ensures IntoRoles(p).Ok? ==> (RolesAllow(IntoRoles(p).value, namespace, operation)
                                  <==> PermissionGrants(p, namespace, operation))
  {
    var ops := p.operations;
    if ops != [] && !HasDuplicates(ops) {
      if MayAdmin in ops {
        assert |ops| == 1 ==> ops == [MayAdmin];
        if IntoRoles(p).Ok? {
          assert RoleAllows(IntoRoles(p).value[0], namespace, operation) && Needs(operation, ops[0]);
        }
      } else if IntoRoles(p).Ok? {
        var roles := RolesFor(ops, p.namespace.value);
        assert forall i | 0 <= i < |ops| :: ops[i] in ops && ops[i] != MayAdmin;
        MatchesIffReaches(p.namespace.value, namespace);
        assert forall i | 0 <= i < |ops| ::
            RoleAllows(roles[i], namespace, operation)
            <==> Needs(operation, ops[i]) && PermissionMatches(p.namespace.value, namespace);
      }
    }
  }

  lemma RolesAllowConcat(a: seq<Role>, b: seq<Role>, namespace: string, operation: Operation)
    ensures RolesAllow(a + b, namespace, operation)
            <==> RolesAllow(a, namespace, operation) || RolesAllow(b, namespace, operation)
  {
    if RolesAllow(a, namespace, operation) {
      var i :| 0 <= i < |a| && RoleAllows(a[i], namespace, operation);
      assert (a + b)[i] == a[i];
    }
    if RolesAllow(b, namespace, operation) {
      var i :| 0 <= i < |b| && RoleAllows(b[i], namespace, operation);
      assert (a + b)[|a| + i] == b[i];
    }
  }

  lemma {:induction false} AllRolesMeaning(ps: seq<Permission>, namespace: string, operation: Operation)
    ensures AllRoles(ps).Ok? <==> forall i | 0 <= i < |ps| :: ValidPermission(ps[i])
    ensures AllRoles(ps).Ok? ==>
              (RolesAllow(AllRoles(ps).value, namespace, operation)
               <==> exists i | 0 <= i < |ps| :: PermissionGrants(ps[i], namespace, operation))
    ensures AllRoles(ps).Ok? ==> |ps| <= OperationCount(ps)
  {
    if ps != [] {
      IntoRolesMeaning(ps[0], namespace, operation);
      AllRolesMeaning(ps[1..], namespace, operation);
      assert forall i | 1 <= i < |ps| :: ps[i] == ps[1..][i - 1];
      if AllRoles(ps).Ok? {
        RolesAllowConcat(IntoRoles(ps[0]).value, AllRoles(ps[1..]).value, namespace, operation);
      }
    }
  }

  /** Conversion succeeds exactly on valid records, and its roles allow exactly what the
      record grants. */
  lemma IntoInfoMeaning(record: AuthRecord, namespace: string, operation: Operation)
    ensures IntoInfo(record).Ok? <==> ValidRecord(record)
    ensures IntoInfo(record).Ok? ==>
              (RolesAllow(IntoInfo(record).value, namespace, operation) <==> Grants(record, namespace, operation))
  {
    AllRolesMeaning(record.permissions, namespace, operation);
    RolesGrant(record.roles, namespace, operation);
    if IntoInfo(record).Ok? {
      RolesAllowConcat(record.roles, AllRoles(record.permissions).value, namespace, operation);
    }
  }

  /** Which error a record that opens no session gives: a failed authentication exactly when it is
      complete but disabled, an invalid record otherwise. */
  lemma {:induction false} RefusalMeaning(record: AuthRecord)
    requires IntoInfo(record).Err?
    ensures IntoInfo(record).error == Failed <==> !IsBlank(record.clientId) && !IsBlank(record.name) && !record.enabled
  {
    AllRolesInvalid(record.permissions);
  }

  lemma {:induction false} AllRolesInvalid(ps: seq<Permission>)
    ensures AllRoles(ps).Err? ==> AllRoles(ps).error == Invalid
  {
    if ps != [] { AllRolesInvalid(ps[1..]); }
  }

  /** A permission on a plain namespace covers it, the namespaces below it and its contexts, and
      no namespace that merely starts with the same text. */
  lemma PlainPermissionCovers(pattern: string, namespace: string)
    requires !EndsWithStar(pattern)
    ensures PermissionMatches(pattern, namespace)
            <==> namespace == pattern || StartsWith(namespace, pattern + "/") || StartsWith(namespace, pattern + "::")
  {
    StartsWithConcat(namespace, pattern, "/");
    StartsWithConcat(namespace, pattern, "::");
  }

  lemma StartsWithConcat(s: string, a: string, b: string)
    ensures StartsWith(s, a + b) <==> StartsWith(s, a) && StartsWith(s[|a|..], b)
  {
    if |a + b| <= |s| {
      assert s[..|a + b|] == s[..|a|] + s[|a|..][..|b|];
      assert s[..|a + b|][..|a|] == s[..|a|] && s[..|a + b|][|a|..] == s[|a|..][..|b|];
    }
  }
}
