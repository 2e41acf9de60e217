/** Building tasks step by step: the task object of a migration with its converting setters, the
    factory's check of a task definition against the constructor, and the loop that prints the
    arguments of a task into a message body. */
module TaskObjects {
  import opened Collections
  import opened Decimal
  import opened Fields
  import opened TaskWire
  import opened Wire

  class LustreOstMigrateTask {
    var filename: string
    var sourceOst: Option<int>
    var targetOst: Option<int>
    var directIo: bool
    var block: bool
    var skip: bool

    ghost function Value(): Migration
      reads this
    {
      Migration(filename, sourceOst, targetOst, directIo, block, skip)
    }

    /** The object before its __init__ has run. */
    constructor ()
      ensures Value() == Migration("", None, None, false, false, false)
    {
      filename, sourceOst, targetOst := "", None, None;
      directIo, block, skip := false, false, false;
    }

    /** __init__: empty fields stay empty until they are set at dispatch; false stands for an
        exception of some setter. */
    method Init(filename: string, sourceOst: string, targetOst: string, directIo: string, block: string, skip: string)
      returns (ok: bool)
      requires Value() == Migration("", None, None, false, false, false)
      modifies this
      ensures ok <==> Construct([filename, sourceOst, targetOst, directIo, block, skip]).Ok?
      ensures ok ==> Construct([filename, sourceOst, targetOst, directIo, block, skip]) == Ok(Value())
    {
      ok := true;
      if filename != "" { ok := SetFilename(filename); }
      if ok && sourceOst != "" { ok := SetSourceOst(sourceOst); }
      if ok && targetOst != "" { ok := SetTargetOst(targetOst); }
      if ok { ok := SetDirectIo(directIo); }
      if ok { ok := SetBlock(block); }
      if ok { ok := SetSkip(skip); }
    }

    method SetFilename(filename: string) returns (ok: bool)
      modifies this`filename
      ensures ok <==> filename != ""
      ensures Value() == if ok then old(Value()).(filename := filename) else old(Value())
    {
      ok := filename != "";
      if ok { this.filename := filename; }
    }

    method SetSourceOst(idx: string) returns (ok: bool)
      modifies this`sourceOst
      ensures ok <==> Int(idx).Ok?
      ensures Value() == if ok then old(Value()).(source := Some(Int(idx).value)) else old(Value())
    {
      var n := Int(idx);
      ok := n.Ok?;
      if ok { sourceOst := Some(n.value); }
    }

    method SetTargetOst(idx: string) returns (ok: bool)
      modifies this`targetOst
      ensures ok <==> Int(idx).Ok?
      ensures Value() == if ok then old(Value()).(target := Some(Int(idx).value)) else old(Value())
    {
      var n := Int(idx);
      ok := n.Ok?;
      if ok { targetOst := Some(n.value); }
    }

    method SetDirectIo(flag: string) returns (ok: bool)
      modifies this`directIo
      ensures ok <==> StrToBool(flag).Ok?
      ensures Value() == if ok then old(Value()).(directIo := StrToBool(flag).value) else old(Value())
    {
      var b := StrToBool(flag);
      ok := b.Ok?;
      if ok { directIo := b.value; }
    }

    method SetBlock(flag: string) returns (ok: bool)
      modifies this`block
      ensures ok <==> StrToBool(flag).Ok?
      ensures Value() == if ok then old(Value()).(block := StrToBool(flag).value) else old(Value())
    {
      var b := StrToBool(flag);
      ok := b.Ok?;
      if ok { block := b.value; }
    }

    method SetSkip(flag: string) returns (ok: bool)
      modifies this`skip
      ensures ok <==> StrToBool(flag).Ok?
      ensures Value() == if ok then old(Value()).(skip := StrToBool(flag).value) else old(Value())
    {
      var b := StrToBool(flag);
      ok := b.Ok?;
      if ok { skip := b.value; }
    }
  }

  /** The body of an assign message: the printed arguments, in the order of the constructor. */
  method CreateBody(args: seq<string>) returns (body: string)
    ensures body == if args == [] then "" else Join(args, SEP)
    ensures args != [] && (forall a :: a in args ==> Plain(a)) ==> Split(body, SEP) == args
  {
    body := "";
    if args != [] {
      body := args[0];
      assert args[..1] == [args[0]];
      for i := 1 to |args|
        invariant body == Join(args[..i], SEP)
      {
        JoinPrefix(args[..i + 1], i, SEP);
        assert args[..i + 1][..i] == args[..i] && args[..i + 1][i..] == [args[i]];
        body := body + [SEP] + args[i];
      }
      assert args[..|args|] == args;
      if forall a :: a in args ==> Plain(a) { SplitOfJoin(args, SEP); }
    }
  }

  /** A task definition: the properties in the order of the XML file. */
  datatype XmlInfo = XmlInfo(module_: string, class_: string, properties: seq<(string, string)>)

  function Names(ps: seq<(string, string)>): seq<string> { seq(|ps|, i requires 0 <= i < |ps| => ps[i].0) }
  function Values(ps: seq<(string, string)>): seq<string> { seq(|ps|, i requires 0 <= i < |ps| => ps[i].1) }

  /** A task is created exactly when the class can be imported and its constructor takes `self`
      and then the named properties, all of them and in this order, at most 15. `signatures` gives
      the parameters of each importable class. */
  method CreateFromXmlInfo(signatures: map<(string, string), seq<string>>, xml: XmlInfo) returns (task: Result<Task>)
    ensures task.Ok? <==>
      && (xml.module_, xml.class_) in signatures
      && signatures[(xml.module_, xml.class_)] == ["self"] + Names(xml.properties)
      && |xml.properties| <= MAX_ARGS
    ensures task.Ok? ==> task.value == Task(xml.module_, xml.class_, "", Values(xml.properties))
  {
    if (xml.module_, xml.class_) !in signatures { return Raised; }
    var spec := signatures[(xml.module_, xml.class_)];
    if |spec| > 0 {
      if spec[0] != "self" { return Raised; }
    }
    if |spec| - 1 != |xml.properties| { return Raised; }
    for i := 0 to |xml.properties|
      invariant forall k :: 0 <= k < i ==> spec[k + 1] == xml.properties[k].0
    {
      if xml.properties[i].0 != spec[i + 1] {
        assert (["self"] + Names(xml.properties))[i + 1] == xml.properties[i].0;
        return Raised;
      }
    }
    assert spec == ["self"] + Names(xml.properties);
    var arity := map[(xml.module_, xml.class_) := |spec| - 1];
    task := CreateTask(arity, xml.module_, xml.class_, "", Values(xml.properties));
  }
}
