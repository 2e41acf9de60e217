/** The text that master and controller exchange: message objects, their printing, the factory
    that parses them, and tasks rebuilt from positional arguments. A missing body (None) and an
    empty one are both "": the program tests both with `if body`. */
module Wire {
  import opened Collections
  import opened Decimal
  import opened Fields

  const SEP: char := '|'

  const TASK_REQUEST := "TASK_REQ"
  const TASK_ASSIGN := "TASK_ASS"
  const WAIT_COMMAND := "WAIT_CMD"
  const TASK_FINISHED := "TASK_FIN"
  const ACKNOWLEDGE := "ACK"
  const HEARTBEAT := "HEARTBEAT"
  const EXIT_COMMAND := "EXIT_CMD"

  const MAX_ARGS := 15

  /** A task object: its class, its id and the printed values of its constructor arguments. */
  datatype Task = Task(package: string, class_: string, tid: string, args: seq<string>)

  /** The importable task classes with the number of arguments each constructor takes. */
  type Registry = map<(string, string), nat>

  datatype Message = Message(header: string, body: string)

  /** What the master reads in a request, and what a controller reads in a reply. */
  datatype Request = WantTask(sender: string) | Finished(sender: string, tid: string) | Beat(sender: string)
  datatype Reply = Assign(task: Task) | Acknowledged | WaitFor(seconds: nat) | Quit | Unhandled

  predicate Plain(s: string) { SEP !in s }

  // ---- msg/base_message.py

  function TypeOf(m: Message): string {
    if SEP in m.header && m.header[0] != SEP then Split(m.header, SEP)[0] else m.header
  }

  function ToString(m: Message): string {
    if m.body != "" then m.header + [SEP] + m.body else m.header
  }

  // ---- message constructors

  function NewTaskRequest(sender: string): Result<Message> {
    if sender == "" then Raised else Ok(Message(TASK_REQUEST, sender))
  }

  function NewHeartbeat(sender: string): Result<Message> {
    if sender == "" then Raised else Ok(Message(HEARTBEAT, sender))
  }

  function NewTaskFinished(sender: string, tid: string): Result<Message> {
    if sender == "" || tid == "" then Raised else Ok(Message(TASK_FINISHED, sender + [SEP] + tid))
  }

  function NewWaitCommand(duration: string): Result<Message> {
    if duration == "" then Raised else Ok(Message(WAIT_COMMAND, duration))
  }

  predicate Contains(s: string, part: string) {
    |part| <= |s| && (s[..|part|] == part || Contains(s[1..], part))
  }

  /** TaskAssign(task) */
  function AssignOfTask(task: Task): Result<Message> {
    if !Contains(task.package, "task.") || task.tid == "" then Raised
    else Ok(Message(TASK_ASSIGN + [SEP] + task.package + [SEP] + task.class_ + [SEP] + task.tid,
                    if task.args == [] then "" else Join(task.args, SEP)))
  }

  /** TaskAssign(text) */
  function AssignOfText(text: string): Result<Message> {
    var items := Split(text, SEP);
    if text == "" || |items| < 4 then Raised
    else
      var header := items[0] + [SEP] + items[1] + [SEP] + items[2] + [SEP] + items[3];
      Ok(Message(header, if |header| < |text| then text[|header| + 1..] else ""))
  }

  /** The factory's choice of a message class from the fields of the text. */
  function FromFields(text: string, items: seq<string>): Result<Message>
    requires |items| >= 1
  {
    var head := items[0];
    if head == TASK_REQUEST && |items| == 2 then NewTaskRequest(items[1])
    else if head == TASK_FINISHED && |items| == 3 then NewTaskFinished(items[1], items[2])
    else if head == ACKNOWLEDGE && |items| == 1 then Ok(Message(ACKNOWLEDGE, ""))
    else if head == WAIT_COMMAND && |items| == 2 then NewWaitCommand(items[1])
    else if head == HEARTBEAT && |items| == 2 then NewHeartbeat(items[1])
    else if head == EXIT_COMMAND && |items| == 1 then Ok(Message(EXIT_COMMAND, ""))
    else if head == TASK_ASSIGN then AssignOfText(text)
    else Raised
  }

  /** MessageFactory.create */
  function Create(text: string): Result<Message> {
    if text == "" then Raised else FromFields(text, Split(text, SEP))
  }

  // ---- task/task_factory.py

  /** Calling the class with the items: the constructor must take that many, and at most 15. */
  function CreateTask(reg: Registry, package: string, class_: string, tid: string, items: seq<string>): Result<Task> {
    if (package, class_) !in reg || |items| > MAX_ARGS || |items| != reg[(package, class_)] then Raised
    else Ok(Task(package, class_, tid, items))
  }

  function ToTask(reg: Registry, m: Message): Result<Task> {
    var items := Split(m.header, SEP);
    if |items| != 4 then Raised
    else CreateTask(reg, items[1], items[2], items[3], if m.body == "" then [] else Split(m.body, SEP))
  }

  // ---- the two directions of the connection

  function EncodeRequest(r: Request): Result<string> {
    var m := match r
      case WantTask(sender) => NewTaskRequest(sender)
      case Finished(sender, tid) => NewTaskFinished(sender, tid)
      case Beat(sender) => NewHeartbeat(sender);
    match m case Raised => Raised case Ok(v) => Ok(ToString(v))
  }

  /** The master's reading: only these three message classes have a sender. */
  function DecodeRequest(text: string): Result<Request> {
    match Create(text)
    case Raised => Raised
    case Ok(m) =>
      if TypeOf(m) == TASK_REQUEST then Ok(WantTask(m.body))
      else if TypeOf(m) == TASK_FINISHED && |Split(m.body, SEP)| >= 2 then
        Ok(Finished(Split(m.body, SEP)[0], Split(m.body, SEP)[1]))
      else if TypeOf(m) == HEARTBEAT then Ok(Beat(m.body))
      else Raised
  }

  function EncodeReply(r: Reply): Result<string> {
    var m := match r
      case Assign(task) => AssignOfTask(task)
      case Acknowledged => Ok(Message(ACKNOWLEDGE, ""))
      case WaitFor(seconds) => NewWaitCommand(Str(seconds))
      case Quit => Ok(Message(EXIT_COMMAND, ""))
      case Unhandled => Raised;
    match m case Raised => Raised case Ok(v) => Ok(ToString(v))
  }

  /** The controller's reading; waiting for a negative time raises. */
  function DecodeReply(reg: Registry, text: string): Result<Reply> {
    match Create(text)
    case Raised => Raised
    case Ok(m) =>
      if TypeOf(m) == TASK_ASSIGN then
        match ToTask(reg, m) { case Raised => Raised case Ok(task) => Ok(Assign(task)) }
      else if TypeOf(m) == ACKNOWLEDGE then Ok(Acknowledged)
      else if TypeOf(m) == WAIT_COMMAND then
        match Int(m.body) { case Raised => Raised case Ok(n) => if n < 0 then Raised else Ok(WaitFor(n)) }
      else if TypeOf(m) == EXIT_COMMAND then Ok(Quit)
      else Ok(Unhandled)
  }

  /** Sending a request and reading it. */
  function CarryRequest(r: Request): Result<Request> {
    match EncodeRequest(r) case Raised => Raised case Ok(text) => DecodeRequest(text)
  }

  /** Sending a reply and reading it. */
  function CarryReply(reg: Registry, r: Reply): Result<Reply> {
    match EncodeReply(r) case Raised => Raised case Ok(text) => DecodeReply(reg, text)
  }

  predicate SafeName(s: string) { s != "" && Plain(s) }

  predicate SafeRequest(r: Request) {
    SafeName(r.sender) && (r.Finished? ==> SafeName(r.tid))
  }

  /** The tasks that survive the wire. */
  predicate SafeTask(task: Task) {
    && Contains(task.package, "task.")
    && SafeName(task.tid)
    && |task.args| <= MAX_ARGS
    && task.args != [""]
    && forall a :: a in task.args ==> Plain(a)
  }

  /** A class is registered under identifiers, with the length of its argument list. */
  predicate Registered(reg: Registry, task: Task) {
    && Plain(task.package) && Plain(task.class_)
    && (task.package, task.class_) in reg
    && reg[(task.package, task.class_)] == |task.args|
  }

  predicate TypeName(s: string) {
    s == TASK_REQUEST || s == TASK_ASSIGN || s == WAIT_COMMAND || s == TASK_FINISHED
    || s == ACKNOWLEDGE || s == HEARTBEAT || s == EXIT_COMMAND
  }

  lemma TypeNames()
    ensures TASK_REQUEST != TASK_ASSIGN && TASK_REQUEST != WAIT_COMMAND && TASK_REQUEST != TASK_FINISHED
    ensures TASK_ASSIGN != TASK_FINISHED && TASK_ASSIGN != WAIT_COMMAND && TASK_FINISHED != WAIT_COMMAND
    ensures ACKNOWLEDGE != TASK_REQUEST && ACKNOWLEDGE != TASK_FINISHED && ACKNOWLEDGE != TASK_ASSIGN
    ensures HEARTBEAT != TASK_REQUEST && HEARTBEAT != TASK_FINISHED && HEARTBEAT != ACKNOWLEDGE
    ensures HEARTBEAT != WAIT_COMMAND && HEARTBEAT != TASK_ASSIGN && WAIT_COMMAND != ACKNOWLEDGE
    ensures EXIT_COMMAND != TASK_REQUEST && EXIT_COMMAND != TASK_FINISHED && EXIT_COMMAND != ACKNOWLEDGE
    ensures EXIT_COMMAND != WAIT_COMMAND && EXIT_COMMAND != HEARTBEAT && EXIT_COMMAND != TASK_ASSIGN
  {
    assert TASK_REQUEST[5] == 'R' && TASK_ASSIGN[5] == 'A' && TASK_FINISHED[5] == 'F';
    assert WAIT_COMMAND[0] == 'W' && EXIT_COMMAND[0] == 'E' && TASK_REQUEST[0] == 'T';
    assert TASK_ASSIGN[0] == 'T' && TASK_FINISHED[0] == 'T';
    assert |ACKNOWLEDGE| == 3 && |HEARTBEAT| == 9 && |TASK_REQUEST| == |TASK_ASSIGN| == |TASK_FINISHED| == 8;
    assert |WAIT_COMMAND| == |EXIT_COMMAND| == 8;
  }

  lemma TypeNamePlain(head: string)
    requires TypeName(head)
    ensures SafeName(head)
  {
  }

  /** How a text that starts with a type name splits. */
  lemma SplitText(head: string, body: string)
    requires Plain(head)
    ensures Split(head, SEP) == [head]
    ensures Split(head + [SEP] + body, SEP) == [head] + Split(body, SEP)
  {
    SplitPlain(head, SEP);
    SplitConcat(head, body, SEP);
  }

  /** What the factory makes of a type name followed by a body. */
  lemma FieldsWithBody(text: string, head: string, parts: seq<string>)
    requires TypeName(head) && head != TASK_ASSIGN && |parts| >= 1
    ensures FromFields(text, [head] + parts) ==
      if |parts| == 1 && head == TASK_REQUEST then NewTaskRequest(parts[0])
      else if |parts| == 1 && head == HEARTBEAT then NewHeartbeat(parts[0])
      else if |parts| == 1 && head == WAIT_COMMAND then NewWaitCommand(parts[0])
      else if |parts| == 2 && head == TASK_FINISHED then NewTaskFinished(parts[0], parts[1])
      else Raised
  {
    TypeNames();
    assert ([head] + parts)[1..] == parts;
  }

  lemma CreateBody(head: string, body: string)
    requires TypeName(head)
    ensures Create(head + [SEP] + body) == FromFields(head + [SEP] + body, [head] + Split(body, SEP))
  {
    TypeNamePlain(head);
    SplitText(head, body);
  }

  lemma CreateNoField(head: string)
    requires head == ACKNOWLEDGE || head == EXIT_COMMAND
    ensures Create(head) == Ok(Message(head, ""))
  {
    TypeNamePlain(head);
    SplitPlain(head, SEP);
    TypeNames();
  }

  lemma OneNameRequest(r: Request)
    requires !r.Finished?
    ensures CarryRequest(r) == Ok(r) <==> SafeRequest(r)
  {
    var head := if r.WantTask? then TASK_REQUEST else HEARTBEAT;
    if r.sender != "" {
      CreateBody(head, r.sender);
      FieldsWithBody(head + [SEP] + r.sender, head, Split(r.sender, SEP));
      SplitPlain(r.sender, SEP);
      TypeNamePlain(head);
      TypeNames();
    }
  }

  lemma FinishedRequest(r: Request)
    requires r.Finished?
    ensures CarryRequest(r) == Ok(r) <==> SafeRequest(r)
  {
    if r.sender != "" && r.tid != "" {
      var body := r.sender + [SEP] + r.tid;
      CreateBody(TASK_FINISHED, body);
      FieldsWithBody(TASK_FINISHED + [SEP] + body, TASK_FINISHED, Split(body, SEP));
      SplitConcat(r.sender, r.tid, SEP);
      SplitPlain(r.sender, SEP);
      SplitPlain(r.tid, SEP);
      TypeNamePlain(TASK_FINISHED);
      TypeNames();
      var items := Split(body, SEP);
      if Plain(r.sender) && Plain(r.tid) {
        assert items == [r.sender, r.tid];
      }
      assert CarryRequest(r).Ok? ==> |items| == 2;
      assert |items| == 2 ==> Plain(items[0]) && Plain(items[1]);
    }
  }

  lemma AssignType(text: string)
    requires AssignOfText(text).Ok? && Split(text, SEP)[0] == TASK_ASSIGN
    ensures TypeOf(AssignOfText(text).value) == TASK_ASSIGN
  {
    var items := Split(text, SEP);
    var rest := items[1] + [SEP] + items[2] + [SEP] + items[3];
    var header := AssignOfText(text).value.header;
    assert header == items[0] + [SEP] + rest;
    SplitText(items[0], rest);
    assert header[0] == 'T' && header[|items[0]|] == SEP;
  }

  lemma HeadIsType(text: string, items: seq<string>)
    requires |items| >= 1 && FromFields(text, items).Ok? && items[0] != TASK_ASSIGN
    ensures FromFields(text, items).value.header == items[0] && TypeName(items[0])
  {
  }

  lemma TypeOfHeader(m: Message)
    requires TypeName(m.header)
    ensures TypeOf(m) == m.header
  {
    TypeNamePlain(m.header);
  }

  /** Only the finished text of three fields makes a finished message. */
  lemma FinishedFields(text: string, items: seq<string>)
    requires |items| >= 1 && items[0] == TASK_FINISHED && FromFields(text, items).Ok?
    ensures |items| == 3 && FromFields(text, items) == NewTaskFinished(items[1], items[2])
  {
    TypeNames();
    if |items| > 1 {
      assert items == [TASK_FINISHED] + items[1..];
      FieldsWithBody(text, TASK_FINISHED, items[1..]);
    }
  }

  /** A finished message that was read names a tid. */
  lemma DecodedTidGiven(text: string)
    ensures DecodeRequest(text).Ok? && DecodeRequest(text).value.Finished? ==> DecodeRequest(text).value.tid != ""
  {
    TypeNames();
    if DecodeRequest(text).Ok? && DecodeRequest(text).value.Finished? {
      var items := Split(text, SEP);
      assert FromFields(text, items) == Ok(Create(text).value);
      if items[0] == TASK_ASSIGN {
        AssignType(text);
        assert false;
      } else {
        HeadIsType(text, items);
        TypeOfHeader(Create(text).value);
        FinishedFields(text, items);
        FinishedBody(items[1], items[2]);
      }
    }
  }

  lemma FinishedBody(sender: string, tid: string)
    requires Plain(sender) && Plain(tid)
    ensures Split(sender + [SEP] + tid, SEP) == [sender, tid]
  {
    SplitConcat(sender, tid, SEP);
    SplitPlain(sender, SEP);
    SplitPlain(tid, SEP);
  }

  /** A request is read as it was sent exactly when its sender and its tid are non-empty and
      free of the separator. */
  lemma RequestRoundTrip(r: Request)
    ensures CarryRequest(r) == Ok(r) <==> SafeRequest(r)
  {
    if r.Finished? { FinishedRequest(r); } else { OneNameRequest(r); }
  }

  /** Replies without a task are always read as they were sent. */
  lemma PlainReplyRoundTrip(reg: Registry, r: Reply)
    requires !r.Assign? && !r.Unhandled?
    ensures CarryReply(reg, r) == Ok(r)
  {
    TypeNames();
    match r {
      case Acknowledged =>
        CreateNoField(ACKNOWLEDGE);
        TypeNamePlain(ACKNOWLEDGE);
      case Quit =>
        CreateNoField(EXIT_COMMAND);
        TypeNamePlain(EXIT_COMMAND);
      case WaitFor(seconds) =>
        CreateBody(WAIT_COMMAND, Str(seconds));
        FieldsWithBody(WAIT_COMMAND + [SEP] + Str(seconds), WAIT_COMMAND, Split(Str(seconds), SEP));
        SplitPlain(Str(seconds), SEP);
        TypeNamePlain(WAIT_COMMAND);
        IntOfStr(seconds);
    }
  }
}
