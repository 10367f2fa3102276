/**
 Which departments a combined application needs, the approval tracks and attachments that
 follow, and the initial tasks (web/src/services/approval-track.service.js).
 */
module ApprovalTracks {
  import opened Lists
  import opened Json
  import opened ObjectPath

  datatype Department = Pollution | Power | Fire | IndustrialSafety | Labour

  /** Each stands for the sentence the source gives as the reason. */
  datatype Explanation =
    | DischargeDeclared
    | LoadDeclared
    | FireCriteriaMet
    | SafetyThresholdsMet
    | LabourThresholdsMet

  datatype RequiredDepartment = RequiredDepartment(
    departmentCode: Department,
    reason: Explanation,
    requiredApprovalType: string,
    isMandatory: bool)

  datatype Track = Track(
    departmentCode: Department,
    taskType: string,
    title: string,
    slaDays: nat,
    explanation: Explanation,
    requiredAttachments: seq<string>,
    isMandatory: bool)

  datatype ApprovalInfo = ApprovalInfo(
    requiredDepartments: seq<RequiredDepartment>,
    approvalTracks: seq<Track>,
    requiredAttachments: seq<string>,
    explanations: seq<Explanation>)

  datatype Task = Task(
    caseId: string,
    universalCaseId: string,
    departmentCode: Department,
    taskType: string,
    title: string,
    dueAt: int,
    warningAt: int)

  const ALL_DEPARTMENTS := [Pollution, Power, Fire, IndustrialSafety, Labour]

  function SlaDays(d: Department): nat
  {
    match d
    case Pollution => 30
    case Power => 21
    case Fire => 15
    case IndustrialSafety => 30
    case Labour => 15
  }

  function TaskType(d: Department): string
  {
    match d
    case Pollution => "consent"
    case Power => "power_connection"
    case Fire => "fire_noc"
    case IndustrialSafety => "factory_license"
    case Labour => "labour_registration"
  }

  function Title(d: Department): string
  {
    match d
    case Pollution => "Pollution Consent Review"
    case Power => "Power Connection Review"
    case Fire => "Fire Safety Review"
    case IndustrialSafety => "Industrial Safety and Factory Licence Review"
    case Labour => "Labour Registration Review"
  }

  function Reason(d: Department): Explanation
  {
    match d
    case Pollution => DischargeDeclared
    case Power => LoadDeclared
    case Fire => FireCriteriaMet
    case IndustrialSafety => SafetyThresholdsMet
    case Labour => LabourThresholdsMet
  }

  function AttachmentsOf(d: Department): seq<string>
  {
    match d
    case Pollution => ["pollution_control_documents"]
    case Power => []
    case Fire => ["fire_safety_plan", "layout_plan"]
    case IndustrialSafety => ["factory_safety_documents"]
    case Labour => ["labour_documents"]
  }

  // ---------------------------------------------------------------- the rules

  /** `(caf[section] || {})[key]`. */
  function Read(caf: Json, section: string, key: string): Json
  {
    Step(Step(caf, section), key)
  }

  predicate Flag(caf: Json, section: string, key: string)
  {
    Truthy(Read(caf, section, key))
  }

  /** `x || 0` for the sanitised quantities, which are numbers or null. */
  function Quantity(caf: Json, section: string, key: string): int
  {
    var v := Read(caf, section, key);
    if v.Num? then v.n else 0
  }

  predicate Needed(d: Department, caf: Json)
  {
    match d
    case Pollution =>
      Read(caf, "environment", "pollutionCategory") in [Str("red"), Str("orange"), Str("green")] ||
      Flag(caf, "environment", "effluentGenerated") ||
      Flag(caf, "environment", "emissionsGenerated") ||
      Flag(caf, "environment", "hazardousWasteGenerated") ||
      Quantity(caf, "project", "waterRequirementKld") > 5
    case Power =>
      Quantity(caf, "project", "powerRequirementKw") > 0 ||
      Quantity(caf, "power", "connectedLoadKw") > 0 ||
      Quantity(caf, "power", "contractDemandKva") > 0 ||
      Flag(caf, "power", "transformerRequired")
    case Fire =>
      Flag(caf, "fire", "fireNocRequired") ||
      Quantity(caf, "fire", "buildingHeightM") >= 15 ||
      Flag(caf, "fire", "storageOfFlammables") ||
      Read(caf, "fire", "occupancyType") in [Str("industrial"), Str("warehouse"), Str("public")]
    case IndustrialSafety =>
      Flag(caf, "industrialSafety", "factoryLicenseRequired") ||
      Flag(caf, "industrialSafety", "machineryInstalled") ||
      Flag(caf, "industrialSafety", "boilers") ||
      Flag(caf, "industrialSafety", "pressureVessels") ||
      Flag(caf, "project", "hazardousProcess") ||
      Quantity(caf, "labour", "employeeCount") >= 10
    case Labour =>
      Quantity(caf, "labour", "employeeCount") >= 10 ||
      Quantity(caf, "labour", "contractLabourCount") > 0 ||
      Flag(caf, "labour", "interstateMigrantWorkers") ||
      Flag(caf, "labour", "shopsEstablishmentRequired") ||
      Flag(caf, "labour", "labourRegistrationRequired")
  }

  // ---------------------------------------------------------------- the tables that follow

  /** The needed departments, in the fixed order. */
  function NeededDepartments(caf: Json): seq<Department>
  {
    Filter(ALL_DEPARTMENTS, Rules(caf))
  }

  function Rules(caf: Json): Department -> bool
  {
    (d: Department) => Needed(d, caf)
  }

  function RequirementFor(d: Department): RequiredDepartment
  {
    RequiredDepartment(d, Reason(d), TaskType(d), true)
  }

  function TrackFor(d: Department): Track
  {
    Track(d, TaskType(d), Title(d), SlaDays(d), Reason(d), AttachmentsOf(d), true)
  }

  function Requirements(ds: seq<Department>): seq<RequiredDepartment>
  {
    seq(|ds|, i requires 0 <= i < |ds| => RequirementFor(ds[i]))
  }

  function Tracks(ds: seq<Department>): seq<Track>
  {
    seq(|ds|, i requires 0 <= i < |ds| => TrackFor(ds[i]))
  }

  function AttachmentsFor(ds: seq<Department>): seq<string>
  {
    if ds == [] then [] else AttachmentsFor(ds[..|ds| - 1]) + AttachmentsOf(ds[|ds| - 1])
  }

  function ReasonsFor(ds: seq<Department>): seq<Explanation>
  {
    seq(|ds|, i requires 0 <= i < |ds| => Reason(ds[i]))
  }

  function InfoFor(ds: seq<Department>): ApprovalInfo
  {
    ApprovalInfo(Requirements(ds), Tracks(ds), Unique(["project_report"] + AttachmentsFor(ds)), ReasonsFor(ds))
  }

  /** What calculateApprovalTracks returns. */
  function ApprovalInfoOf(caf: Json): ApprovalInfo
  {
    InfoFor(NeededDepartments(caf))
  }

  /** The arrays under construction, after some of the departments. */
  datatype Pushed = Pushed(
    required: seq<RequiredDepartment>,
    tracks: seq<Track>,
    attachments: seq<string>,
    explanations: seq<Explanation>)

  predicate Built(l: Pushed, ds: seq<Department>)
  {
    l == Pushed(Requirements(ds), Tracks(ds), ["project_report"] + AttachmentsFor(ds), ReasonsFor(ds))
  }

  lemma BuiltAppend(ds: seq<Department>, d: Department)
    ensures Requirements(ds + [d]) == Requirements(ds) + [RequirementFor(d)]
    ensures Tracks(ds + [d]) == Tracks(ds) + [TrackFor(d)]
    ensures AttachmentsFor(ds + [d]) == AttachmentsFor(ds) + AttachmentsOf(d)
    ensures ReasonsFor(ds + [d]) == ReasonsFor(ds) + [Reason(d)]
  {
    assert (ds + [d])[..|ds|] == ds;
  }

  function One(d: Department, needed: bool): seq<Department>
  {
    if needed then [d] else []
  }

  /** One `if (...Needed)` block: the pushes for a department. */
  method Consider(l: Pushed, d: Department, needed: bool, ghost ds: seq<Department>) returns (l': Pushed)
    requires Built(l, ds)
    ensures Built(l', ds + One(d, needed))
  {
    if needed {
      BuiltAppend(ds, d);
      var reason := Reason(d);
      var required := l.required + [RequiredDepartment(d, reason, TaskType(d), true)];
      var tracks := l.tracks + [Track(d, TaskType(d), Title(d), SlaDays(d), reason, AttachmentsOf(d), true)];
      l' := Pushed(required, tracks, l.attachments + AttachmentsOf(d), l.explanations + [reason]);
    } else {
      assert ds + [] == ds;
      l' := l;
    }
  }

  function Blocks(p: bool, w: bool, f: bool, s: bool, l: bool): seq<Department>
  {
    One(Pollution, p) + One(Power, w) + One(Fire, f) + One(IndustrialSafety, s) + One(Labour, l)
  }

  /** The five blocks, in order. */
  method PushBlocks(p: bool, w: bool, f: bool, s: bool, b: bool) returns (l: Pushed)
    ensures Built(l, Blocks(p, w, f, s, b))
  {
    l := Pushed([], [], ["project_report"], []);
    assert Built(l, []);
    assert [] + One(Pollution, p) == One(Pollution, p);
    l := Consider(l, Pollution, p, []);
    l := Consider(l, Power, w, One(Pollution, p));
    l := Consider(l, Fire, f, One(Pollution, p) + One(Power, w));
    l := Consider(l, IndustrialSafety, s, One(Pollution, p) + One(Power, w) + One(Fire, f));
    l := Consider(l, Labour, b, One(Pollution, p) + One(Power, w) + One(Fire, f) + One(IndustrialSafety, s));
  }

  /** The five blocks select the departments a filter over the fixed list selects. */
  lemma BlocksFilter(needed: Department -> bool)
    ensures Blocks(needed(Pollution), needed(Power), needed(Fire), needed(IndustrialSafety), needed(Labour))
         == Filter(ALL_DEPARTMENTS, needed)
  {
    assert Filter([], needed) == [];
    FilterStep([], Pollution, needed);
    FilterStep([Pollution], Power, needed);
    FilterStep([Pollution, Power], Fire, needed);
    FilterStep([Pollution, Power, Fire], IndustrialSafety, needed);
    FilterStep([Pollution, Power, Fire, IndustrialSafety], Labour, needed);
    assert [Pollution] + [Power] == [Pollution, Power];
    assert [Pollution, Power] + [Fire] == [Pollution, Power, Fire];
    assert [Pollution, Power, Fire] + [IndustrialSafety] == [Pollution, Power, Fire, IndustrialSafety];
    assert [Pollution, Power, Fire, IndustrialSafety] + [Labour] == ALL_DEPARTMENTS;
    assert [] + [Pollution] == [Pollution];
    assert [] + One(Pollution, needed(Pollution)) == One(Pollution, needed(Pollution));
  }

  lemma FilterStep(ds: seq<Department>, d: Department, needed: Department -> bool)
    ensures Filter(ds + [d], needed) == Filter(ds, needed) + One(d, needed(d))
  {
    FilterAppend(ds, d, needed);
  }

  method CalculateApprovalTracks(caf: Json) returns (info: ApprovalInfo)
    ensures info == ApprovalInfoOf(caf)
  {
    BlocksFilter(Rules(caf));
    var l := PushBlocks(Needed(Pollution, caf), Needed(Power, caf), Needed(Fire, caf),
                        Needed(IndustrialSafety, caf), Needed(Labour, caf));
    info := ApprovalInfo(l.required, l.tracks, Unique(l.attachments), l.explanations);
  }

  function DepartmentsOfTracks(tracks: seq<Track>): seq<Department>
  {
    seq(|tracks|, i requires 0 <= i < |tracks| => tracks[i].departmentCode)
  }

  function DepartmentsRequired(required: seq<RequiredDepartment>): seq<Department>
  {
    seq(|required|, i requires 0 <= i < |required| => required[i].departmentCode)
  }

  /** getRequiredAttachments, computed back from the tracks. */
  function FlatAttachments(tracks: seq<Track>): seq<string>
  {
    if tracks == [] then [] else FlatAttachments(tracks[..|tracks| - 1]) + tracks[|tracks| - 1].requiredAttachments
  }

  function GetRequiredAttachments(tracks: seq<Track>): seq<string>
  {
    Unique(FlatAttachments(tracks) + ["project_report"])
  }

  const DAY_MS := 24 * 60 * 60 * 1000

  function TaskFor(caseId: string, universalCaseId: string, t: Track, now: int): Task
  {
    Task(caseId, universalCaseId, t.departmentCode, t.taskType, t.title,
         now + t.slaDays * DAY_MS, now + (t.slaDays * 4 / 5) * DAY_MS)
  }

  /** Due after the SLA days; the warning falls on the last whole day within four fifths of them. */
  predicate Scheduled(t: Task, slaDays: nat, now: int)
  {
    t.dueAt - now == slaDays * DAY_MS &&
    now <= t.warningAt <= t.dueAt && (t.warningAt - now) % DAY_MS == 0 &&
    5 * (t.warningAt - now) <= 4 * (t.dueAt - now) < 5 * (t.warningAt - now + DAY_MS)
  }

  /** buildInitialTasks: one pending task per track. */
  function InitialTasks(caseId: string, universalCaseId: string, tracks: seq<Track>, now: int): (tasks: seq<Task>)
    ensures |tasks| == |tracks|
    ensures forall i :: 0 <= i < |tracks| ==> tasks[i].departmentCode == tracks[i].departmentCode
    ensures forall i :: 0 <= i < |tracks| ==> tasks[i].taskType == tracks[i].taskType
    ensures forall i :: 0 <= i < |tracks| ==> tasks[i].title == tracks[i].title
    ensures forall i :: 0 <= i < |tracks| ==> Scheduled(tasks[i], tracks[i].slaDays, now)
    ensures forall i :: 0 <= i < |tracks| ==> tasks[i].caseId == caseId && tasks[i].universalCaseId == universalCaseId
  {
    seq(|tracks|, i requires 0 <= i < |tracks| => TaskFor(caseId, universalCaseId, tracks[i], now))
  }

  function DepartmentsOfTasks(tasks: seq<Task>): seq<Department>
  {
    seq(|tasks|, i requires 0 <= i < |tasks| => tasks[i].departmentCode)
  }

  // ---------------------------------------------------------------- agreement

  /** Each department at most once, exactly when its rule fires, in the fixed order. */
  lemma NeededDepartmentsExact(caf: Json)
    ensures NoRepeats(NeededDepartments(caf))
    ensures forall d :: d in NeededDepartments(caf) <==> Needed(d, caf)
  {
    SelectExact(Rules(caf));
  }

  lemma NoneNeededIff(caf: Json)
    ensures NeededDepartments(caf) == [] <==> forall d :: !Needed(d, caf)
  {
    NeededDepartmentsExact(caf);
    if NeededDepartments(caf) != [] {
      assert NeededDepartments(caf)[0] in NeededDepartments(caf);
    }
  }

  lemma SelectExact(needed: Department -> bool)
    ensures NoRepeats(Filter(ALL_DEPARTMENTS, needed))
    ensures forall d :: d in Filter(ALL_DEPARTMENTS, needed) <==> needed(d)
  {
    FilterKeepsDistinct(ALL_DEPARTMENTS, needed);
    forall d
      ensures d in Filter(ALL_DEPARTMENTS, needed) <==> needed(d)
    {
      FilterMember(ALL_DEPARTMENTS, needed, d);
      assert d in ALL_DEPARTMENTS by {
        match d
        case Pollution => assert ALL_DEPARTMENTS[0] == d;
        case Power => assert ALL_DEPARTMENTS[1] == d;
        case Fire => assert ALL_DEPARTMENTS[2] == d;
        case IndustrialSafety => assert ALL_DEPARTMENTS[3] == d;
        case Labour => assert ALL_DEPARTMENTS[4] == d;
      }
    }
  }

  /** Two forms need the same departments exactly when they fire the same rules. */
  lemma SameDepartmentsIff(a: Json, b: Json)
    ensures NeededDepartments(a) == NeededDepartments(b) <==> forall d :: Needed(d, a) <==> Needed(d, b)
  {
    NeededDepartmentsExact(a);
    NeededDepartmentsExact(b);
    BlocksFilter(Rules(a));
    BlocksFilter(Rules(b));
    if NeededDepartments(a) == NeededDepartments(b) {
      forall d
        ensures Needed(d, a) <==> Needed(d, b)
      {
        assert d in NeededDepartments(a) <==> d in NeededDepartments(b);
      }
    }
  }

  /** The required departments, the tracks and the tasks name the same departments, in the same order. */
  lemma ListsAgree(caf: Json, caseId: string, universalCaseId: string, now: int)
    ensures var info := ApprovalInfoOf(caf);
            var ds := NeededDepartments(caf);
            DepartmentsRequired(info.requiredDepartments) == ds &&
            DepartmentsOfTracks(info.approvalTracks) == ds &&
            DepartmentsOfTasks(InitialTasks(caseId, universalCaseId, info.approvalTracks, now)) == ds
  {
  }

  /** Each of them carries the reason of its department. */
  lemma ReasonsAgree(caf: Json, i: nat)
    requires i < |NeededDepartments(caf)|
    ensures var info := ApprovalInfoOf(caf);
            var ds := NeededDepartments(caf);
            |info.requiredDepartments| == |info.approvalTracks| == |info.explanations| == |ds| &&
            info.requiredDepartments[i].reason == Reason(ds[i]) &&
            info.approvalTracks[i].explanation == info.explanations[i] == Reason(ds[i]) &&
            info.requiredDepartments[i].requiredApprovalType == info.approvalTracks[i].taskType == TaskType(ds[i]) &&
            info.requiredDepartments[i].isMandatory && info.approvalTracks[i].isMandatory
  {
  }

  lemma {:induction false} FlatAttachmentsOfTracks(ds: seq<Department>)
    ensures FlatAttachments(Tracks(ds)) == AttachmentsFor(ds)
  {
    if ds != [] {
      FlatAttachmentsOfTracks(ds[..|ds| - 1]);
      assert Tracks(ds)[..|ds| - 1] == Tracks(ds[..|ds| - 1]);
    }
  }

  /** The attachments listed with the tracks are the ones the tracks themselves ask for. */
  lemma {:induction false} AttachmentsAgree(caf: Json)
    ensures var info := ApprovalInfoOf(caf);
            NoRepeats(info.requiredAttachments) &&
            multiset(info.requiredAttachments) == multiset(GetRequiredAttachments(info.approvalTracks))
  {
    var ds := NeededDepartments(caf);
    FlatAttachmentsOfTracks(ds);
    var a := AttachmentsFor(ds);
    SameMembersPermute(Unique(["project_report"] + a), Unique(a + ["project_report"]));
  }

  lemma {:induction false} AttachmentsForMember(ds: seq<Department>, name: string)
    ensures name in AttachmentsFor(ds) <==> exists d <- ds :: name in AttachmentsOf(d)
  {
    if ds != [] {
      var init, last := ds[..|ds| - 1], ds[|ds| - 1];
      AttachmentsForMember(init, name);
      assert ds == init + [last];
      assert last in ds;
    }
  }

  /** The project report is always asked for, and whatever else a needed department asks for. */
  lemma {:induction false} AttachmentsExact(caf: Json, name: string)
    ensures name in ApprovalInfoOf(caf).requiredAttachments <==>
            name == "project_report" || exists d :: Needed(d, caf) && name in AttachmentsOf(d)
  {
    var ds := NeededDepartments(caf);
    NeededDepartmentsExact(caf);
    AttachmentsForMember(ds, name);
    assert name in ["project_report"] + AttachmentsFor(ds) <==> name == "project_report" || name in AttachmentsFor(ds);
  }

  // ---------------------------------------------------------------- the rules as a table

  /** What a single field is tested for. */
  datatype Test = IsSet | IsOneOf(names: seq<string>) | Above(limit: nat) | From(least: nat)

  datatype Trigger = Trigger(section: string, key: string, test: Test)

  predicate Passes(t: Test, v: Json)
  {
    match t
    case IsSet => Truthy(v)
    case IsOneOf(names) => v.Str? && v.s in names
    case Above(limit) => v.Num? && v.n > limit
    case From(least) => v.Num? && v.n >= least
  }

  predicate Fires(t: Trigger, caf: Json)
  {
    Passes(t.test, Read(caf, t.section, t.key))
  }

  function TriggersOf(d: Department): seq<Trigger>
  {
    match d
    case Pollution =>
      [Trigger("environment", "pollutionCategory", IsOneOf(["red", "orange", "green"])),
       Trigger("environment", "effluentGenerated", IsSet),
       Trigger("environment", "emissionsGenerated", IsSet),
       Trigger("environment", "hazardousWasteGenerated", IsSet),
       Trigger("project", "waterRequirementKld", Above(5))]
    case Power =>
      [Trigger("project", "powerRequirementKw", Above(0)),
       Trigger("power", "connectedLoadKw", Above(0)),
       Trigger("power", "contractDemandKva", Above(0)),
       Trigger("power", "transformerRequired", IsSet)]
    case Fire =>
      [Trigger("fire", "fireNocRequired", IsSet),
       Trigger("fire", "buildingHeightM", From(15)),
       Trigger("fire", "storageOfFlammables", IsSet),
       Trigger("fire", "occupancyType", IsOneOf(["industrial", "warehouse", "public"]))]
    case IndustrialSafety =>
      [Trigger("industrialSafety", "factoryLicenseRequired", IsSet),
       Trigger("industrialSafety", "machineryInstalled", IsSet),
       Trigger("industrialSafety", "boilers", IsSet),
       Trigger("industrialSafety", "pressureVessels", IsSet),
       Trigger("project", "hazardousProcess", IsSet),
       Trigger("labour", "employeeCount", From(10))]
    case Labour =>
      [Trigger("labour", "employeeCount", From(10)),
       Trigger("labour", "contractLabourCount", Above(0)),
       Trigger("labour", "interstateMigrantWorkers", IsSet),
       Trigger("labour", "shopsEstablishmentRequired", IsSet),
       Trigger("labour", "labourRegistrationRequired", IsSet)]
  }

  /** Some trigger of the list fires. */
  predicate AnyFires(triggers: seq<Trigger>, caf: Json)
  {
    triggers != [] && (Fires(triggers[0], caf) || AnyFires(triggers[1..], caf))
  }

  lemma {:induction false} AnyFiresIff(triggers: seq<Trigger>, caf: Json)
    ensures AnyFires(triggers, caf) <==> exists t <- triggers :: Fires(t, caf)
  {
    if triggers != [] {
      AnyFiresIff(triggers[1..], caf);
      assert triggers == [triggers[0]] + triggers[1..];
    }
  }

  lemma FirstTwo(ts: seq<Trigger>, caf: Json)
    requires |ts| >= 2
    ensures AnyFires(ts, caf) <==> Fires(ts[0], caf) || Fires(ts[1], caf) || AnyFires(ts[2..], caf)
  {
    assert ts[1..][1..] == ts[2..];
  }

  lemma FirstFour(ts: seq<Trigger>, caf: Json)
    requires |ts| >= 4
    ensures AnyFires(ts, caf) <==>
            Fires(ts[0], caf) || Fires(ts[1], caf) || Fires(ts[2], caf) || Fires(ts[3], caf) || AnyFires(ts[4..], caf)
  {
    FirstTwo(ts, caf);
    FirstTwo(ts[2..], caf);
    assert ts[2..][2..] == ts[4..];
  }

  lemma AllFive(ts: seq<Trigger>, caf: Json)
    requires |ts| == 5
    ensures AnyFires(ts, caf) <==>
            Fires(ts[0], caf) || Fires(ts[1], caf) || Fires(ts[2], caf) || Fires(ts[3], caf) || Fires(ts[4], caf)
  {
    FirstFour(ts, caf);
    assert ts[4..] == [ts[4]];
  }

  lemma AllSix(ts: seq<Trigger>, caf: Json)
    requires |ts| == 6
    ensures AnyFires(ts, caf) <==>
            Fires(ts[0], caf) || Fires(ts[1], caf) || Fires(ts[2], caf) || Fires(ts[3], caf) || Fires(ts[4], caf) ||
            Fires(ts[5], caf)
  {
    FirstFour(ts, caf);
    FirstTwo(ts[4..], caf);
  }

  lemma PollutionTriggered(caf: Json)
    ensures Needed(Pollution, caf) <==> AnyFires(TriggersOf(Pollution), caf)
  {
    AllFive(TriggersOf(Pollution), caf);
  }

  lemma PowerTriggered(caf: Json)
    ensures Needed(Power, caf) <==> AnyFires(TriggersOf(Power), caf)
  {
    FirstFour(TriggersOf(Power), caf);
  }

  lemma FireTriggered(caf: Json)
    ensures Needed(Fire, caf) <==> AnyFires(TriggersOf(Fire), caf)
  {
    FirstFour(TriggersOf(Fire), caf);
  }

  lemma SafetyTriggered(caf: Json)
    ensures Needed(IndustrialSafety, caf) <==> AnyFires(TriggersOf(IndustrialSafety), caf)
  {
    AllSix(TriggersOf(IndustrialSafety), caf);
  }

  lemma LabourTriggered(caf: Json)
    ensures Needed(Labour, caf) <==> AnyFires(TriggersOf(Labour), caf)
  {
    AllFive(TriggersOf(Labour), caf);
  }

  /** A department is needed exactly when one of its triggers fires. */
  lemma {:induction false} NeededIffTriggered(d: Department, caf: Json)
    ensures Needed(d, caf) <==> exists t <- TriggersOf(d) :: Fires(t, caf)
  {
    AnyFiresIff(TriggersOf(d), caf);
    match d
    case Pollution => PollutionTriggered(caf);
    case Power => PowerTriggered(caf);
    case Fire => FireTriggered(caf);
    case IndustrialSafety => SafetyTriggered(caf);
    case Labour => LabourTriggered(caf);
  }

  lemma SoleRead(section: string, key: string, v: Json, s: string, k: string)
    ensures Read(Obj(map[section := Obj(map[key := v])]), s, k) == if s == section && k == key then v else Undefined
  {
  }

  lemma SoleFires(t: Trigger, section: string, key: string, v: Json)
    ensures Fires(t, Obj(map[section := Obj(map[key := v])])) <==>
            t.section == section && t.key == key && Passes(t.test, v)
  {
    SoleRead(section, key, v, t.section, t.key);
  }

  /** So one field alone decides: a form with nothing else needs the departments it triggers. */
  lemma SoleFieldDecides(d: Department, section: string, key: string, v: Json)
    ensures Needed(d, Obj(map[section := Obj(map[key := v])])) <==>
            exists t <- TriggersOf(d) :: t.section == section && t.key == key && Passes(t.test, v)
  {
    var caf := Obj(map[section := Obj(map[key := v])]);
    NeededIffTriggered(d, caf);
    forall t | t in TriggersOf(d)
      ensures Fires(t, caf) <==> t.section == section && t.key == key && Passes(t.test, v)
    {
      SoleFires(t, section, key, v);
    }
  }
}
