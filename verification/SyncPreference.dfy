/** Which table selections the sync-preference service accepts. */
module SyncPreference {
  import opened Common
  import opened Strings
  import opened TableNames
  import opened ForeignKeyClosure

  datatype Mode = SchemaOnly | SchemaAndData

  datatype Error = InvalidRepoId | RepoNotFound | InvalidTable(name: string) | Conflict(missing: seq<string>)

  datatype Result<+T> = Ok(value: T) | Err(error: Error)

  /** A table selection; none means the whole repository. */
  type Selection = Option<seq<string>>

  datatype Plan = Plan(mode: Mode, requested: Selection, resolved: Selection, autoIncluded: seq<string>)

  datatype Preference = Preference(mode: Mode, requested: Selection, createdAt: int, updatedAt: int)

  /** /^[a-zA-Z0-9_-]{1,64}$/ */
  predicate ValidRepoId(id: string) {
    1 <= |id| <= 64 && forall i :: 0 <= i < |id| ==> IsLetter(id[i]) || IsDigit(id[i]) || id[i] == '_' || id[i] == '-'
  }

  /** Trimmed names, without the empty ones. */
  function Cleaned(tables: seq<string>): seq<string> {
    if tables == [] then []
    else (if Trim(tables[0]) == "" then [] else [Trim(tables[0])]) + Cleaned(tables[1..])
  }

  function FirstInvalid(names: seq<string>): Option<string> {
    if names == [] then None
    else if !SafeTableName(names[0]) then Some(names[0])
    else FirstInvalid(names[1..])
  }

  function NormalizeTables(tables: Selection): Result<Selection> {
    if tables.None? || Cleaned(tables.value) == [] then Ok(None)
    else
      var names := Cleaned(tables.value);
      var invalid := FirstInvalid(names);
      if invalid.Some? then Err(InvalidTable(invalid.value)) else Ok(Some(UniqueSorted(names)))
  }

  lemma {:induction false} FirstInvalidNone(names: seq<string>)
    ensures FirstInvalid(names).None? <==> forall n :: n in names ==> SafeTableName(n)
    ensures FirstInvalid(names).Some? ==> FirstInvalid(names).value in names && !SafeTableName(FirstInvalid(names).value)
  {
    if names != [] {
      FirstInvalidNone(names[1..]);
      assert names == [names[0]] + names[1..];
    }
  }

  lemma LetterIsNotSpace(c: char)
    requires IsLetter(c) || IsDigit(c) || c == '_'
    ensures !IsSpace(c)
  {
  }

  /** A safe name has nothing to trim. */
  lemma SafeNameIsTrimmed(name: string)
    requires SafeTableName(name)
    ensures Trim(name) == name
  {
    LetterIsNotSpace(name[0]);
    LetterIsNotSpace(name[|name| - 1]);
  }

  lemma {:induction false} CleanedSafe(names: seq<string>)
    requires forall n :: n in names ==> SafeTableName(n)
    ensures Cleaned(names) == names
  {
    if names != [] {
      assert names == [names[0]] + names[1..];
      assert names[0] in names && forall n :: n in names[1..] ==> n in names;
      SafeNameIsTrimmed(names[0]);
      CleanedSafe(names[1..]);
    }
  }

  /** A normalised selection is non-empty, ascending, made of safe names, and normalises to itself. */
  ghost predicate IsNormal(names: seq<string>) {
    names != [] && Ascending(names) && forall n :: n in names ==> SafeTableName(n)
  }

  lemma NormalizeIsNormal(tables: Selection)
    ensures NormalizeTables(tables).Ok? && NormalizeTables(tables).value.Some? ==> IsNormal(NormalizeTables(tables).value.value)
  {
    if tables.Some? {
      var names := Cleaned(tables.value);
      FirstInvalidNone(names);
      UniqueSortedSorts(names);
      ElementsEmpty(names);
      ElementsEmpty(UniqueSorted(names));
      assert forall n :: n in UniqueSorted(names) ==> n in Elements(UniqueSorted(names));
    }
  }

  lemma {:induction false} CleanedNames(tables: seq<string>, n: string)
    ensures n in Cleaned(tables) <==> n != "" && exists i :: 0 <= i < |tables| && Trim(tables[i]) == n
  {
    if tables != [] {
      CleanedNames(tables[1..], n);
      assert forall i :: 1 <= i < |tables| ==> tables[i] == tables[1..][i - 1];
    }
  }

  /** The trimmed form of one of the names asked for. */
  ghost predicate AskedFor(tables: seq<string>, n: string) {
    n != "" && exists i :: 0 <= i < |tables| && Trim(tables[i]) == n
  }

  /**
   * A list is refused exactly when a name that is not blank is unsafe, naming such a
   * name; it stands for no selection exactly when it holds no name; and otherwise the
   * result holds exactly the trimmed names.
   */
  lemma NormalizeMeaning(tables: seq<string>)
    ensures NormalizeTables(Some(tables)).Err? <==> exists n :: AskedFor(tables, n) && !SafeTableName(n)
    ensures NormalizeTables(Some(tables)) == Ok(None) <==> forall n :: !AskedFor(tables, n)
    ensures match NormalizeTables(Some(tables))
            case Err(e) => e.InvalidTable? && AskedFor(tables, e.name) && !SafeTableName(e.name)
            case Ok(None) => true
            case Ok(Some(names)) => IsNormal(names) && forall n :: n in names <==> AskedFor(tables, n)
  {
    var names := Cleaned(tables);
    forall n
      ensures n in names <==> AskedFor(tables, n)
    {
      CleanedNames(tables, n);
    }
    HasMember(names);
    FirstInvalidNone(names);
    NormalizeIsNormal(Some(tables));
    UniqueSortedSorts(names);
    assert forall n :: n in UniqueSorted(names) <==> n in Elements(UniqueSorted(names));
  }

  lemma NormalizeError(tables: Selection)
    ensures NormalizeTables(tables).Err? ==> NormalizeTables(tables).error.InvalidTable?
  {
  }

  lemma NormalIsFixpoint(names: seq<string>)
    requires IsNormal(names)
    ensures NormalizeTables(Some(names)) == Ok(Some(names))
  {
    CleanedSafe(names);
    FirstInvalidNone(names);
    UniqueSortedFixpoint(names);
  }

  /** The edges that the catalog reader lets through have safe names at both ends. */
  ghost predicate SafeEdges(edges: seq<Edge>) {
    forall e :: e in edges ==> SafeTableName(e.table) && SafeTableName(e.references)
  }

  /** The resolved tables that were not asked for. */
  function Missing(resolved: seq<string>, requested: seq<string>): seq<string> {
    if resolved == [] then []
    else (if resolved[0] in requested then [] else [resolved[0]]) + Missing(resolved[1..], requested)
  }

  lemma {:induction false} MissingElements(resolved: seq<string>, requested: seq<string>)
    ensures forall t :: t in Missing(resolved, requested) <==> t in resolved && t !in requested
  {
    if resolved != [] {
      MissingElements(resolved[1..], requested);
      assert resolved == [resolved[0]] + resolved[1..];
    }
  }

  lemma {:induction false} MissingAscending(resolved: seq<string>, requested: seq<string>)
    requires Ascending(resolved)
    ensures Ascending(Missing(resolved, requested))
  {
    if resolved != [] {
      AscendingTail(resolved);
      MissingAscending(resolved[1..], requested);
      MissingElements(resolved[1..], requested);
      var rest := Missing(resolved[1..], requested);
      assert forall y :: y in Elements(rest) ==> y in Elements(resolved[1..]);
      if resolved[0] !in requested {
        AscendingCons(resolved[0], rest);
      }
    }
  }

  /** What a plan for a selection must say. */
  ghost predicate PlanFor(p: Plan, mode: Mode, requested: Selection, edges: seq<Edge>) {
    && p.mode == mode && p.requested == requested
    && if requested.None? then p.resolved.None? && p.autoIncluded == []
       else
         && p.resolved.Some? && Ascending(p.resolved.value)
         && Elements(p.resolved.value) == Closure(edges, Elements(requested.value))
         && Ascending(p.autoIncluded)
         && forall t :: t in p.autoIncluded <==> t in p.resolved.value && t !in requested.value
  }

  method BuildPlan(mode: Mode, requested: Selection, edges: seq<Edge>) returns (p: Plan)
    ensures PlanFor(p, mode, requested, edges)
  {
    if requested.None? {
      return Plan(mode, None, None, []);
    }
    var resolved := ComputeClosure(requested.value, edges);
    MissingAscending(resolved, requested.value);
    MissingElements(resolved, requested.value);
    return Plan(mode, requested, Some(resolved), Missing(resolved, requested.value));
  }

  /** A plan needs nothing beyond the request exactly when the request is closed; then it resolves to itself. */
  lemma AcceptedIffClosed(p: Plan, mode: Mode, names: seq<string>, edges: seq<Edge>)
    requires PlanFor(p, mode, Some(names), edges) && Ascending(names)
    ensures p.autoIncluded == [] <==> Closed(edges, Elements(names))
    ensures p.autoIncluded == [] ==> p.resolved == Some(names)
  {
    var request, resolved := Elements(names), p.resolved.value;
    ClosureIsLeast(edges, request);
    ClosedIffFixpoint(edges, request);
    HasMember(p.autoIncluded);
    assert forall t :: t in Elements(resolved) <==> t in resolved;
    if p.autoIncluded == [] {
      assert forall t :: t !in p.autoIncluded;
      assert Elements(resolved) == request;
      AscendingUnique(resolved, names);
    }
  }

  /** The closure of a normal selection over safe edges is itself normal. */
  lemma ClosureIsNormal(p: Plan, mode: Mode, names: seq<string>, edges: seq<Edge>)
    requires PlanFor(p, mode, Some(names), edges) && IsNormal(names) && SafeEdges(edges)
    ensures IsNormal(p.resolved.value)
  {
    var resolved := p.resolved.value;
    ClosureIsLeast(edges, Elements(names));
    ElementsEmpty(names);
    ElementsEmpty(resolved);
    forall n | n in resolved
      ensures SafeTableName(n)
    {
      assert n in Elements(resolved);
    }
  }

  class SyncPreferenceService {
    /** The repositories that exist. */
    const repos: set<string>
    var preferences: map<string, Preference>

    constructor (repos: set<string>)
      ensures this.repos == repos && preferences == map[]
    {
      this.repos := repos;
      preferences := map[];
    }

    method RequireRepo(repoId: string) returns (e: Option<Error>)
      ensures e == if !ValidRepoId(repoId) then Some(InvalidRepoId) else if repoId !in repos then Some(RepoNotFound) else None
    {
      if !ValidRepoId(repoId) {
        return Some(InvalidRepoId);
      }
      return if repoId in repos then None else Some(RepoNotFound);
    }

    predicate KnownRepo(repoId: string) {
      ValidRepoId(repoId) && repoId in repos
    }

    /** Why a request is refused: an unknown repository, then an unsafe name, then what the selection leaves out. */
    ghost predicate RefusedWith(repoId: string, tables: Selection, edges: seq<Edge>, e: Error) {
      && (!ValidRepoId(repoId) <==> e.InvalidRepoId?)
      && (ValidRepoId(repoId) && repoId !in repos <==> e.RepoNotFound?)
      && (KnownRepo(repoId) && NormalizeTables(tables).Err? <==> e.InvalidTable?)
      && (e.InvalidTable? ==> e == NormalizeTables(tables).error)
      && (e.Conflict? ==>
            && NormalizeTables(tables).Ok? && NormalizeTables(tables).value.Some? && e.missing != []
            && Ascending(e.missing)
            && var request := Elements(NormalizeTables(tables).value.value);
               forall t :: t in e.missing <==> t in Closure(edges, request) && t !in request)
    }

    /** Plans without storing or refusing anything; `edges` are the foreign keys of the repository at this moment. */
    method Preview(repoId: string, mode: Mode, tables: Selection, edges: seq<Edge>) returns (r: Result<Plan>)
      ensures r.Ok? <==> KnownRepo(repoId) && NormalizeTables(tables).Ok?
      ensures r.Ok? ==> PlanFor(r.value, mode, NormalizeTables(tables).value, edges)
      ensures !ValidRepoId(repoId) ==> r == Err(InvalidRepoId)
      ensures ValidRepoId(repoId) && repoId !in repos ==> r == Err(RepoNotFound)
      ensures KnownRepo(repoId) && NormalizeTables(tables).Err? ==> r == Err(NormalizeTables(tables).error)
    {
      var e := RequireRepo(repoId);
      if e.Some? {
        return Err(e.value);
      }
      var normal := NormalizeTables(tables);
      if normal.Err? {
        return Err(normal.error);
      }
      var p := BuildPlan(mode, normal.value, edges);
      return Ok(p);
    }

    /** The plan, or a conflict that lists what the selection leaves out. */
    method Checked(repoId: string, mode: Mode, tables: Selection, edges: seq<Edge>) returns (r: Result<Plan>)
      ensures r.Ok? <==> KnownRepo(repoId) && Accepts(tables, edges)
      ensures r.Ok? ==> PlanFor(r.value, mode, NormalizeTables(tables).value, edges)
      ensures r.Ok? ==> r.value.resolved == r.value.requested && r.value.autoIncluded == []
      ensures r.Ok? ==> r.value.mode == mode
      ensures r.Err? ==> RefusedWith(repoId, tables, edges, r.error)
    {
      NormalizeError(tables);
      r := Preview(repoId, mode, tables, edges);
      NormalizeIsNormal(tables);
      if r.Ok? && r.value.requested.Some? {
        var p := r.value;
        AcceptedIffClosed(p, mode, p.requested.value, edges);
        if p.autoIncluded != [] {
          assert forall t :: t in Elements(p.resolved.value) <==> t in p.resolved.value;
          return Err(Conflict(p.autoIncluded));
        }
      }
    }

    /** Stores the normalised selection if it is accepted, and otherwise changes nothing. */
    method Upsert(repoId: string, mode: Mode, tables: Selection, edges: seq<Edge>, now: int) returns (r: Result<Preference>)
      modifies this
      ensures r.Ok? <==> KnownRepo(repoId) && Accepts(tables, edges)
      ensures r.Ok? ==> r.value == Preference(mode, NormalizeTables(tables).value, now, now)
      ensures r.Ok? ==> preferences == old(preferences)[repoId :=
                          r.value.(createdAt := if repoId in old(preferences) then old(preferences)[repoId].createdAt else now)]
      ensures r.Err? ==> preferences == old(preferences) && RefusedWith(repoId, tables, edges, r.error)
    {
      var plan := Checked(repoId, mode, tables, edges);
      if plan.Err? {
        return Err(plan.error);
      }
      var record := Preference(plan.value.mode, plan.value.requested, now, now);
      var createdAt := if repoId in preferences then preferences[repoId].createdAt else now;
      preferences := preferences[repoId := record.(createdAt := createdAt)];
      return Ok(record);
    }

    /** The answer for a selection: accepted if closed, with the normalised list, and otherwise refused for it. */
    ghost predicate AnswersFor(r: Result<Plan>, repoId: string, tables: Selection, edges: seq<Edge>) {
      && (r.Ok? <==> KnownRepo(repoId) && Accepts(tables, edges))
      && (r.Ok? ==> r.value.requested == NormalizeTables(tables).value)
      && (r.Err? ==> RefusedWith(repoId, tables, edges, r.error))
    }

    /**
     * Overrides win over the stored preference.  An override of the tables may be the whole
     * repository; an absent one means the stored list, or the whole repository without one.
     */
    method ValidatePushOptions(repoId: string, mode: Option<Mode>, tables: Option<Selection>, dryRun: Option<bool>,
                               edges: seq<Edge>)
      returns (r: Result<Plan>, dry: bool)
      ensures tables.Some? ==> AnswersFor(r, repoId, tables.value, edges)
      ensures tables.None? && repoId in preferences ==> AnswersFor(r, repoId, preferences[repoId].requested, edges)
      ensures tables.None? && repoId !in preferences ==> AnswersFor(r, repoId, None, edges)
      ensures r.Ok? && mode.Some? ==> r.value.mode == mode.value
      ensures r.Ok? && mode.None? && repoId in preferences ==> r.value.mode == preferences[repoId].mode
      ensures r.Ok? && mode.None? && repoId !in preferences ==> r.value.mode == SchemaAndData
      ensures r.Ok? ==> r.value.resolved == r.value.requested && r.value.autoIncluded == []
      ensures dry <==> dryRun == Some(true)
    {
      var stored := if repoId in preferences then Some(preferences[repoId]) else None;
      var chosenMode := if mode.Some? then mode.value else if stored.Some? then stored.value.mode else SchemaAndData;
      r := Checked(repoId, chosenMode, Effective(repoId, tables), edges);
      dry := if dryRun.Some? then dryRun.value else false;
    }

    function Effective(repoId: string, tables: Option<Selection>): Selection
      reads this
    {
      if tables.Some? then tables.value
      else if repoId in preferences then preferences[repoId].requested
      else None
    }
  }

  /** A selection is accepted exactly when its names are valid and it is closed under foreign keys. */
  ghost predicate Accepts(tables: Selection, edges: seq<Edge>) {
    && NormalizeTables(tables).Ok?
    && (NormalizeTables(tables).value.Some? ==> Closed(edges, Elements(NormalizeTables(tables).value.value)))
  }

  /** Resubmitting the closure that a preview returned is accepted, over the same edges, and resolves to itself. */
  lemma PreviewedClosureIsAccepted(p: Plan, mode: Mode, tables: Selection, edges: seq<Edge>)
    requires NormalizeTables(tables).Ok? && PlanFor(p, mode, NormalizeTables(tables).value, edges) && SafeEdges(edges)
    ensures Accepts(p.resolved, edges) && NormalizeTables(p.resolved) == Ok(p.resolved)
  {
    if p.resolved.Some? {
      var names := NormalizeTables(tables).value.value;
      NormalizeIsNormal(tables);
      ClosureIsNormal(p, mode, names, edges);
      NormalIsFixpoint(p.resolved.value);
      ClosureIsLeast(edges, Elements(names));
    }
  }

  /** A repository id has one to 64 letters, digits, underscores and hyphens, and no other character. */
  lemma RepoIdMeaning(id: string)
    ensures ValidRepoId(id) <==>
            && id != "" && |id| < 65
            && forall c :: c in id ==> 'a' <= c <= 'z' || 'A' <= c <= 'Z' || '0' <= c <= '9' || c == '_' || c == '-'
  {
    assert forall i :: 0 <= i < |id| ==> id[i] in id;
  }
}
