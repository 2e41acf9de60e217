/** Tasks across the wire: which tasks arrive as they were sent, which texts re-print to
    themselves, and the typed payload of a migration task. */
module TaskWire {
  import opened Collections
  import opened Decimal
  import opened Fields
  import opened Wire

  /** Whatever a controller reads, its tid and arguments hold no separator. */
  lemma DecodedTaskIsPlain(reg: Registry, text: string, task: Task)
    requires DecodeReply(reg, text) == Ok(Assign(task))
    ensures Plain(task.tid) && |task.args| <= MAX_ARGS
    ensures forall a :: a in task.args ==> Plain(a)
  {
    var m := Create(text).value;
    var items := Split(m.header, SEP);
    assert ToTask(reg, m) == Ok(task);
    assert Plain(items[3]);
  }

  function HeaderOf(package: string, class_: string, tid: string): string {
    TASK_ASSIGN + [SEP] + package + [SEP] + class_ + [SEP] + tid
  }

  lemma HeaderSplits(package: string, class_: string, tid: string)
    requires Plain(package) && Plain(class_) && Plain(tid)
    ensures Split(HeaderOf(package, class_, tid), SEP) == [TASK_ASSIGN, package, class_, tid]
  {
    TypeNamePlain(TASK_ASSIGN);
    var parts := [TASK_ASSIGN, package, class_, tid];
    JoinFour(parts);
    SplitOfJoin(parts, SEP);
  }

  lemma JoinFour(p: seq<string>)
    requires |p| == 4
    ensures Join(p, SEP) == p[0] + [SEP] + p[1] + [SEP] + p[2] + [SEP] + p[3]
  {
    assert p[1..][1..][1..] == [p[3]];
    assert p[1..][1..] == [p[2], p[3]];
    assert Join(p[1..][1..], SEP) == p[2] + [SEP] + p[3];
    assert Join(p[1..], SEP) == p[1] + [SEP] + (p[2] + [SEP] + p[3]);
    assert Join(p, SEP) == p[0] + [SEP] + (p[1] + [SEP] + (p[2] + [SEP] + p[3]));
  }

  /** The header and body the text constructor finds behind a plain tid. */
  lemma AssignTextParts(package: string, class_: string, tid: string, body: string)
    requires Plain(package) && Plain(class_) && Plain(tid)
    ensures var header := HeaderOf(package, class_, tid);
      && Split(header, SEP) == [TASK_ASSIGN, package, class_, tid]
      && Split(header + [SEP] + body, SEP) == [TASK_ASSIGN, package, class_, tid] + Split(body, SEP)
      && AssignOfText(header) == Ok(Message(header, ""))
      && AssignOfText(header + [SEP] + body) == Ok(Message(header, body))
  {
    var header := HeaderOf(package, class_, tid);
    HeaderSplits(package, class_, tid);
    SplitConcat(header, body, SEP);
    assert (header + [SEP] + body)[|header| + 1..] == body;
  }

  lemma CreateAssign(text: string)
    requires text != "" && Split(text, SEP)[0] == TASK_ASSIGN
    ensures Create(text) == AssignOfText(text)
  {
    TypeNames();
  }

  lemma SafeTaskArrives(reg: Registry, task: Task)
    requires Registered(reg, task) && SafeTask(task)
    ensures CarryReply(reg, Assign(task)) == Ok(Assign(task))
  {
    var header := HeaderOf(task.package, task.class_, task.tid);
    var body := if task.args == [] then "" else Join(task.args, SEP);
    AssignTextParts(task.package, task.class_, task.tid, body);
    assert header[0] == 'T' && header[|TASK_ASSIGN|] == SEP;
    if task.args == [] {
      CreateAssign(header);
    } else {
      SplitOfJoin(task.args, SEP);
      CreateAssign(header + [SEP] + body);
    }
  }

  /** The one empty argument is the only one that gets lost. */
  lemma OneEmptyArgumentIsLost(reg: Registry, task: Task)
    requires Registered(reg, task) && task.args == [""] && Plain(task.tid)
    ensures CarryReply(reg, Assign(task)) == Raised
  {
    var header := HeaderOf(task.package, task.class_, task.tid);
    AssignTextParts(task.package, task.class_, task.tid, "");
    assert header[0] == 'T' && header[|TASK_ASSIGN|] == SEP;
    CreateAssign(header);
  }

  /** A task of a registered class arrives as it was sent exactly when it is safe. */
  lemma TaskRoundTrip(reg: Registry, task: Task)
    requires Registered(reg, task)
    ensures CarryReply(reg, Assign(task)) == Ok(Assign(task)) <==> SafeTask(task)
  {
    if SafeTask(task) {
      SafeTaskArrives(reg, task);
    } else if CarryReply(reg, Assign(task)) == Ok(Assign(task)) {
      DecodedTaskIsPlain(reg, EncodeReply(Assign(task)).value, task);
      OneEmptyArgumentIsLost(reg, task);
      assert false;
    }
  }

  /** An assign text prints to itself, unless it is four header fields and a bare separator. */
  lemma AssignTextReprints(text: string)
    requires AssignOfText(text).Ok?
    ensures var m := AssignOfText(text).value;
      ToString(m) == text <==> text != m.header + [SEP]
  {
    var items := Split(text, SEP);
    var m := AssignOfText(text).value;
    JoinOfSplit(text, SEP);
    JoinFour(items[..4]);
    if |items| == 4 {
      assert items[..4] == items;
    } else {
      JoinPrefix(items, 4, SEP);
    }
  }

  // ---- task/lustre_ost_migrate_task.py

  /** A field that stays '' until the generator sets it. */
  datatype Migration = Migration(filename: string, source: Option<int>, target: Option<int>,
                                 directIo: bool, block: bool, skip: bool)

  function LowerChar(c: char): char {
    if 'A' <= c <= 'Z' then (c as int - 'A' as int + 'a' as int) as char else c
  }

  function Lower(s: string): string {
    if s == "" then "" else [LowerChar(s[0])] + Lower(s[1..])
  }

  /** distutils.util.strtobool */
  function StrToBool(s: string): Result<bool> {
    var low := Lower(s);
    if low in ["y", "yes", "t", "true", "on", "1"] then Ok(true)
    else if low in ["n", "no", "f", "false", "off", "0"] then Ok(false)
    else Raised
  }

  /** str(b) */
  function StrOfBool(b: bool): string { if b then "True" else "False" }

  function OptInt(s: string): Result<Option<int>> {
    if s == "" then Ok(None) else match Int(s) { case Raised => Raised case Ok(n) => Ok(Some(n)) }
  }

  function StrOfOpt(n: Option<int>): string { if n.None? then "" else StrInt(n.value) }

  /** LustreOstMigrateTask.__init__ */
  function Construct(args: seq<string>): Result<Migration> {
    if |args| != 6 then Raised
    else match (OptInt(args[1]), OptInt(args[2]), StrToBool(args[3]), StrToBool(args[4]), StrToBool(args[5]))
      case (Ok(source), Ok(target), Ok(directIo), Ok(block), Ok(skip)) =>
        Ok(Migration(args[0], source, target, directIo, block, skip))
      case _ => Raised
  }

  /** The values that the header and body builder reads back from the object. */
  function Args(m: Migration): seq<string> {
    [m.filename, StrOfOpt(m.source), StrOfOpt(m.target), StrOfBool(m.directIo), StrOfBool(m.block), StrOfBool(m.skip)]
  }

  lemma BoolRoundTrip(b: bool)
    ensures StrToBool(StrOfBool(b)) == Ok(b) && Plain(StrOfBool(b))
  {
    if b {
      assert Lower("True") == "true";
    } else {
      assert Lower("False") == "false";
      assert |"false"| == 5;
      assert "false"[0] == 'f';
    }
  }

  lemma OptRoundTrip(n: Option<int>)
    ensures OptInt(StrOfOpt(n)) == Ok(n) && Plain(StrOfOpt(n))
  {
    if n.Some? { IntOfStrInt(n.value); }
  }

  const MIGRATE_PACKAGE := "task.lustre_ost_migrate_task"
  const MIGRATE_CLASS := "LustreOstMigrateTask"

  function MigrateTask(tid: string, m: Migration): Task {
    Task(MIGRATE_PACKAGE, MIGRATE_CLASS, tid, Args(m))
  }

  predicate Imports(reg: Registry) {
    (MIGRATE_PACKAGE, MIGRATE_CLASS) in reg && reg[(MIGRATE_PACKAGE, MIGRATE_CLASS)] == 6
  }

  /** The printed fields of a migration rebuild it, whatever the field values. */
  lemma MigrationRebuilt(m: Migration)
    ensures Construct(Args(m)) == Ok(m)
    ensures Plain(m.filename) ==> forall a :: a in Args(m) ==> Plain(a)
  {
    OptRoundTrip(m.source);
    OptRoundTrip(m.target);
    BoolRoundTrip(m.directIo);
    BoolRoundTrip(m.block);
    BoolRoundTrip(m.skip);
  }

  lemma MigrateClassNames()
    ensures Plain(MIGRATE_PACKAGE) && Plain(MIGRATE_CLASS) && Contains(MIGRATE_PACKAGE, "task.")
  {
    assert MIGRATE_PACKAGE[..5] == "task.";
  }

  lemma MigrateTaskSafe(reg: Registry, tid: string, m: Migration)
    requires Imports(reg) && SafeName(tid) && Plain(m.filename)
    ensures Registered(reg, MigrateTask(tid, m)) && SafeTask(MigrateTask(tid, m))
  {
    MigrationRebuilt(m);
    MigrateClassNames();
    assert forall a :: a in Args(m) ==> Plain(a);
  }

  /** What the worker rebuilds from the text is the migration the master sent. */
  lemma MigrationArrives(reg: Registry, tid: string, m: Migration)
    requires Imports(reg) && SafeName(tid) && Plain(m.filename)
    ensures CarryReply(reg, Assign(MigrateTask(tid, m))) == Ok(Assign(MigrateTask(tid, m)))
    ensures Construct(MigrateTask(tid, m).args) == Ok(m)
  {
    MigrateTaskSafe(reg, tid, m);
    SafeTaskArrives(reg, MigrateTask(tid, m));
    MigrationRebuilt(m);
  }
}
