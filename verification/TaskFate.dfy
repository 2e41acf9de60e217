/** What becomes of any task on the wire: it arrives as it was sent, or as another task, or not at
    all; and any request arrives as it was sent or not at all. */
module TaskFate {
  import opened Collections
  import opened Fields
  import opened TaskWire
  import opened Wire

  predicate Importable(reg: Registry, task: Task) { (task.package, task.class_) in reg }

  /** A task object of a Python class: its names are identifiers, and it has the arguments of its
      constructor, if the other side can import the class at all. */
  predicate Typed(reg: Registry, task: Task) {
    && Plain(task.package) && Plain(task.class_)
    && (Importable(reg, task) ==> reg[(task.package, task.class_)] == |task.args|)
  }

  /** A tid of two fields takes the place of an empty body: the second field is read as the one
      argument, or, when it is empty, as no body at all. */
  predicate Mangled(task: Task) {
    var tids := Split(task.tid, SEP);
    && Contains(task.package, "task.") && |tids| == 2
    && task.args == if tids[1] == "" then [] else [""]
  }

  /** The task that is read in its place. */
  function Misread(task: Task): Task
    requires Mangled(task)
  {
    var tids := Split(task.tid, SEP);
    Task(task.package, task.class_, tids[0], if tids[1] == "" then [] else [tids[1]])
  }

  /** The fields behind the header that a reader takes for arguments. */
  function ArgsRead(fields: seq<string>): seq<string> { if fields == [""] then [] else fields }

  lemma JoinEmpty(parts: seq<string>)
    requires |parts| >= 1
    ensures Join(parts, SEP) == "" <==> parts == [""]
  {
  }

  /** How an assign text is read, field by field. */
  lemma AssignRead(reg: Registry, text: string)
    requires text != "" && Split(text, SEP)[0] == TASK_ASSIGN && |Split(text, SEP)| >= 4
    ensures var f := Split(text, SEP);
      DecodeReply(reg, text) == match CreateTask(reg, f[1], f[2], f[3], ArgsRead(f[4..]))
        case Raised => Raised
        case Ok(task) => Ok(Assign(task))
  {
    var f := Split(text, SEP);
    AssignParts(text);
    CreateAssign(text);
    AssignType(text);
    var m := AssignOfText(text).value;
    assert Split(m.header, SEP) == f[..4];
    assert (if m.body == "" then [] else Split(m.body, SEP)) == ArgsRead(f[4..]);
  }

  /** Header and body of an assign text are its first four fields and the others. */
  lemma AssignParts(text: string)
    requires text != "" && |Split(text, SEP)| >= 4
    ensures AssignOfText(text).Ok?
    ensures var f := Split(text, SEP);
      var m := AssignOfText(text).value;
      && Split(m.header, SEP) == f[..4]
      && (m.body == "" <==> f[4..] == [] || f[4..] == [""])
      && (m.body != "" ==> Split(m.body, SEP) == f[4..])
  {
    var f := Split(text, SEP);
    var m := AssignOfText(text).value;
    JoinOfSplit(text, SEP);
    JoinFour(f[..4]);
    SplitOfJoin(f[..4], SEP);
    assert m.header == Join(f[..4], SEP);
    if |f| == 4 {
      assert f[..4] == f && f[4..] == [];
    } else {
      JoinPrefix(f, 4, SEP);
      assert text == m.header + [SEP] + Join(f[4..], SEP);
      assert m.body == Join(f[4..], SEP);
      JoinEmpty(f[4..]);
      SplitOfJoin(f[4..], SEP);
    }
  }

  function BodyFields(args: seq<string>): seq<string> {
    if args == [] || args == [""] then [] else Split(Join(args, SEP), SEP)
  }

  /** The fields of the text of a task. */
  lemma TextOfTask(task: Task)
    requires Plain(task.package) && Plain(task.class_) && Contains(task.package, "task.") && task.tid != ""
    ensures EncodeReply(Assign(task)).Ok? && EncodeReply(Assign(task)).value != ""
    ensures Split(EncodeReply(Assign(task)).value, SEP) ==
      [TASK_ASSIGN, task.package, task.class_] + Split(task.tid, SEP) + BodyFields(task.args)
  {
    var front := TASK_ASSIGN + [SEP] + task.package + [SEP] + task.class_;
    var header := HeaderOf(task.package, task.class_, task.tid);
    FrontSplits(task.package, task.class_);
    assert header == front + [SEP] + task.tid;
    SplitConcat(front, task.tid, SEP);
    if task.args != [] {
      JoinEmpty(task.args);
      if task.args != [""] { SplitConcat(header, Join(task.args, SEP), SEP); }
    }
  }

  lemma FrontSplits(package: string, class_: string)
    requires Plain(package) && Plain(class_)
    ensures Split(TASK_ASSIGN + [SEP] + package + [SEP] + class_, SEP) == [TASK_ASSIGN, package, class_]
  {
    TypeNamePlain(TASK_ASSIGN);
    SplitPlain(TASK_ASSIGN, SEP);
    SplitPlain(package, SEP);
    SplitPlain(class_, SEP);
    SplitConcat(TASK_ASSIGN, package, SEP);
    SplitConcat(TASK_ASSIGN + [SEP] + package, class_, SEP);
  }

  ghost predicate AllPlain(parts: seq<string>) { forall p :: p in parts ==> Plain(p) }

  lemma AllPlainCons(parts: seq<string>)
    requires |parts| >= 1
    ensures AllPlain(parts) <==> Plain(parts[0]) && AllPlain(parts[1..])
  {
    assert parts == [parts[0]] + parts[1..];
  }

  /** Splitting what was joined gives at least as many fields, and as many only if it gives the
      same ones. */
  lemma {:induction false} MoreFields(parts: seq<string>)
    requires |parts| >= 1
    ensures |Split(Join(parts, SEP), SEP)| >= |parts|
    ensures |Split(Join(parts, SEP), SEP)| == |parts| <==> AllPlain(parts)
  {
    SplitPlain(parts[0], SEP);
    AllPlainCons(parts);
    if |parts| > 1 {
      MoreFields(parts[1..]);
      SplitConcat(parts[0], Join(parts[1..], SEP), SEP);
    }
  }

  // ---- the three fates

  function Read(reg: Registry, task: Task, tids: seq<string>, fields: seq<string>): Result<Reply>
    requires |tids| >= 1
  {
    match CreateTask(reg, task.package, task.class_, tids[0], ArgsRead(tids[1..] + fields))
    case Raised => Raised
    case Ok(t) => Ok(Assign(t))
  }

  lemma FieldsAre(f: seq<string>, front: seq<string>, tids: seq<string>, fields: seq<string>)
    requires |front| == 3 && |tids| >= 1 && f == front + tids + fields
    ensures |f| >= 4 && f[0] == front[0] && f[1] == front[1] && f[2] == front[2] && f[3] == tids[0]
    ensures f[4..] == tids[1..] + fields
  {
  }

  /** The reading of the text of a task, in terms of its tid and its arguments. */
  lemma Carried(reg: Registry, task: Task)
    requires Plain(task.package) && Plain(task.class_) && Contains(task.package, "task.") && task.tid != ""
    ensures CarryReply(reg, Assign(task)) == Read(reg, task, Split(task.tid, SEP), BodyFields(task.args))
  {
    TextOfTask(task);
    var text := EncodeReply(Assign(task)).value;
    var f, tids := Split(text, SEP), Split(task.tid, SEP);
    FieldsAre(f, [TASK_ASSIGN, task.package, task.class_], tids, BodyFields(task.args));
    AssignRead(reg, text);
  }

  /** Arguments that are not exactly one empty string keep their number only if the tid and all of
      them are plain. */
  lemma FullBody(task: Task, tids: seq<string>)
    requires task.args != [] && task.args != [""] && |tids| >= 1
    ensures var read := ArgsRead(tids[1..] + BodyFields(task.args));
      && (|read| == |task.args| <==> |tids| == 1 && AllPlain(task.args))
      && (|read| == |task.args| ==> read == task.args)
  {
    var fields := BodyFields(task.args);
    MoreFields(task.args);
    JoinEmpty(task.args);
    SplitPlain(Join(task.args, SEP), SEP);
    JoinOfSplit(Join(task.args, SEP), SEP);
    assert fields != [""];
    assert tids[1..] + fields != [""];
    if |tids| == 1 {
      assert tids[1..] + fields == fields;
      if AllPlain(task.args) { SplitOfJoin(task.args, SEP); }
    }
  }

  /** Without a body the rest of the tid is read as the arguments. */
  lemma NoBody(task: Task, tids: seq<string>)
    requires (task.args == [] || task.args == [""]) && |tids| >= 1
    ensures var read := ArgsRead(tids[1..] + BodyFields(task.args));
      && (|tids| == 1 ==> read == [])
      && (|read| == |task.args| && |tids| > 1 <==> |tids| == 2 && task.args == if tids[1] == "" then [] else [""])
      && (|tids| == 2 && task.args == (if tids[1] == "" then [] else [""]) ==> read == if tids[1] == "" then [] else [tids[1]])
  {
    assert tids[1..] + [] == tids[1..];
    if |tids| == 2 { assert tids[1..] == [tids[1]]; }
  }

  /** The fate of a task: it arrives unchanged exactly if it is safe and its class can be imported;
      a mangled one of such a class arrives as the task it is misread as; nothing else arrives. */
  lemma TaskFate(reg: Registry, task: Task)
    requires Typed(reg, task)
    ensures CarryReply(reg, Assign(task)) ==
      if Importable(reg, task) && SafeTask(task) then Ok(Assign(task))
      else if Importable(reg, task) && Mangled(task) then Ok(Assign(Misread(task)))
      else Raised
  {
    if Contains(task.package, "task.") && task.tid != "" {
      var tids := Split(task.tid, SEP);
      Carried(reg, task);
      SplitPlain(task.tid, SEP);
      if task.args == [] || task.args == [""] { NoBody(task, tids); } else { FullBody(task, tids); }
    } else {
      SplitPlain("", SEP);
    }
  }

  /** For example, one empty argument behind the tid "x|y" is read as the argument "y" of task "x". */
  lemma ReadAsAnother(reg: Registry, package: string, class_: string)
    requires Plain(package) && Plain(class_) && Contains(package, "task.")
    requires (package, class_) in reg && reg[(package, class_)] == 1
    ensures CarryReply(reg, Assign(Task(package, class_, "x|y", [""]))) == Ok(Assign(Task(package, class_, "x", ["y"])))
  {
    SplitConcat("x", "y", SEP);
    SplitPlain("x", SEP);
    SplitPlain("y", SEP);
    assert "x" + [SEP] + "y" == "x|y";
    TaskFate(reg, Task(package, class_, "x|y", [""]));
  }

  /** A mangled task is not safe, and is read as another one. */
  lemma MangledIsAnother(task: Task)
    requires Mangled(task)
    ensures !SafeTask(task) && Misread(task).tid != task.tid && Plain(Misread(task).tid)
  {
    SplitPlain(task.tid, SEP);
  }

  /** A request arrives as it was sent or not at all. */
  lemma RequestFate(r: Request)
    ensures CarryRequest(r) == if SafeRequest(r) then Ok(r) else Raised
  {
    RequestRoundTrip(r);
    if !SafeRequest(r) { UnsafeRequest(r); }
  }

  lemma UnsafeRequest(r: Request)
    requires !SafeRequest(r)
    ensures CarryRequest(r) == Raised
  {
    if EncodeRequest(r).Ok? {
      TypeNames();
      SplitPlain(r.sender, SEP);
      if r.Finished? {
        var body := r.sender + [SEP] + r.tid;
        SplitConcat(r.sender, r.tid, SEP);
        SplitPlain(r.tid, SEP);
        CreateBody(TASK_FINISHED, body);
        FieldsWithBody(TASK_FINISHED + [SEP] + body, TASK_FINISHED, Split(body, SEP));
      } else {
        var head := if r.WantTask? then TASK_REQUEST else HEARTBEAT;
        CreateBody(head, r.sender);
        FieldsWithBody(head + [SEP] + r.sender, head, Split(r.sender, SEP));
      }
    }
  }
}
