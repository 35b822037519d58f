/** The `Parser` class of parser.py:29-249: its fields, the constructor that
    reads and normalises the lines, and `parse`, the loop over the lines
    that updates the fields and the declaration tree in place. Each branch
    of the loop body is a method, proved to do what the matching function
    of `ScopeMachine` says, and `Parse` is proved to compute `Steps` over
    the lines from the parser's own fields. */
module Parser {
  import opened Wrappers
  import opened PyStr
  import opened Lines
  import opened Docs
  import opened Items
  import opened Extractors
  import opened ScopeMachine

  /** The local variables of `parse` (parser.py:91-95). */
  datatype Locals = Locals(state: State, prevState: State, docblock: seq<string>, sourceBlock: seq<string>, lineNum: nat)

  class Parser {
    /** `self.state`: the state `parse` starts its scan in. */
    var state: State
    /** `self.lines`: the normalised lines of the file. */
    var lines: seq<string>
    /** Every object created so far; `Root` is `self.root_namespace`. */
    var tree: Tree
    var curNamespace: Ref
    var curFunction: Ref
    var curClass: Ref
    var curInterface: Ref
    var curTrait: Ref
    var curMethod: Ref
    var bracesDiff: int
    var isPrevDocblock: bool
    var isFirstLevelDocblock: bool
    var curDocblock: Pending
    /** The `utils` recognisers the scan consults. */
    const classifier: Classifier
    /** The line readers the scan calls: `Php`, the extractors of
        parser.py:252-562. */
    const readers: Readers

    /** The scan's variables: the locals `l` of `parse` and the fields. */
    ghost function Vars(l: Locals): Machine
      reads this
    {
      Machine(l.state, l.prevState, l.docblock, l.sourceBlock, l.lineNum, tree, curNamespace, curFunction, curClass,
              curInterface, curTrait, curMethod, bracesDiff, isPrevDocblock, isFirstLevelDocblock, curDocblock)
    }

    /** The locals `parse` starts with, and the variables of the scan
        before its first line. */
    ghost function Start(): Machine
      reads this
    {
      Vars(Locals(state, state, [], [], 0))
    }

    /** Every `cur_*` field designates an object and every line is
        normal. */
    ghost predicate Valid()
      reads this
    {
      RefsValid(Start()) && AllNormal(lines)
    }

    /** The fields hold the parser's part of the variables `m`. */
    ghost predicate Holds(m: Machine)
      reads this
    {
      && tree == m.tree && curNamespace == m.curNamespace && curFunction == m.curFunction && curClass == m.curClass
      && curInterface == m.curInterface && curTrait == m.curTrait && curMethod == m.curMethod
      && bracesDiff == m.bracesDiff && isPrevDocblock == m.isPrevDocblock
      && isFirstLevelDocblock == m.isFirstLevelDocblock && curDocblock == m.curDocblock
    }

    /** What a branch of the loop body leaves: the locals with the fields,
        or the fault that stops the scan. */
    ghost function Outcome(r: Result<Locals, Fault>): Result<Machine, Fault>
      reads this
    {
      match r
      case Ok(l) => Ok(Vars(l))
      case Err(e) => Err(e)
    }

    /** `Parser(filepath)` on a file whose lines are `raw`: the fields
        start as `Init` says, and the lines are the normalised ones. */
    constructor(c: Classifier, raw: seq<string>)
      ensures classifier == c && readers == Php && lines == Normalised(raw)
      ensures Start() == Init()
      ensures Valid()
    {
      var ls := NormaliseLines(raw);
      state := OutOfPhp;
      lines := ls;
      tree := InitialTree;
      curNamespace := Root;
      curFunction := 0;
      curClass := 0;
      curInterface := 0;
      curTrait := 0;
      curMethod := 0;
      bracesDiff := 0;
      isPrevDocblock := false;
      isFirstLevelDocblock := true;
      curDocblock := DocblockClass;
      classifier := c;
      readers := Php;
    }

    /** `self.cur_namespace = self.root_namespace.add_namespace(...)` */
    method AddRootNamespace(name: string)
      requires 0 < |tree.namespaces|
      modifies this
      ensures tree == AddNamespace(old(tree).(namespaces := old(tree).namespaces + [NewNamespace(name)]), Root, old(|tree.namespaces|))
      ensures curNamespace == old(|tree.namespaces|)
      ensures unchanged(this`lines, this`state, this`curFunction, this`curClass, this`curInterface, this`curTrait,
                        this`curMethod, this`bracesDiff, this`isPrevDocblock, this`isFirstLevelDocblock, this`curDocblock)
    {
      var n := |tree.namespaces|;
      tree := tree.(namespaces := tree.namespaces + [NewNamespace(name)]);
      tree := AddNamespace(tree, Root, n);
      curNamespace := n;
    }

    /** The branch for `OUT_OF_PHP` (parser.py:98-106). */
    method ScanOutOfPhp(l: Locals, line: string) returns (r: Result<Locals, Fault>)
      requires RefsValid(Vars(l)) && l.state == OutOfPhp
      modifies this
      ensures lines == old(lines) && state == old(state)
      ensures Outcome(r) == StepOutOfPhp(classifier, readers, old(Vars(l)), line)
    {
      if Find(line, "<?php") == 0 {
        if classifier.isNamespaceLine(line) {
          AddRootNamespace(readers.namespaceName(line));
        }
        r := Ok(l.(prevState := l.state, state := Global));
      } else {
        r := Err(NotPhpOpen(l.lineNum));
      }
    }

    /** The branch for `GLOBAL` (parser.py:107-150). */
    method ScanGlobal(l: Locals, line: string) returns (r: Result<Locals, Fault>)
      requires RefsValid(Vars(l)) && l.state == Global
      modifies this
      ensures lines == old(lines) && state == old(state)
      ensures Outcome(r) == StepGlobal(classifier, readers, old(Vars(l)), line)
    {
      if line == "?>" {
        r := Ok(l.(state := OutOfPhp));
      } else if line == "/**" {
        r := Ok(l.(prevState := l.state, state := InDocblock));
      } else if classifier.isNamespaceLine(line) {
        isFirstLevelDocblock := false;
        isPrevDocblock := false;
        AddRootNamespace(readers.namespaceName(line));
        r := Ok(l);
      } else {
        r := ScanGlobalDeclaration(l, line);
      }
    }

    method ScanGlobalDeclaration(l: Locals, line: string) returns (r: Result<Locals, Fault>)
      requires RefsValid(Vars(l)) && l.state == Global
      modifies this
      ensures lines == old(lines) && state == old(state)
      ensures Outcome(r) == GlobalDeclaration(classifier, readers, old(Vars(l)), line)
    {
      if classifier.isGlobalVarLine(line) {
        isFirstLevelDocblock := false;
        tree := AddGlobalVar(tree, Root, readers.globalVar(line));
        r := Ok(l);
      } else if classifier.isVarLine(line) {
        isFirstLevelDocblock := false;
        tree := AddGlobalVar(tree, Root, readers.variable(line));
        r := Ok(l);
      } else if classifier.isDefineLine(line) {
        isFirstLevelDocblock := false;
        tree := AddGlobalConst(tree, Root, readers.define(line));
        r := Ok(l);
      } else if classifier.isConstLine(line) {
        isFirstLevelDocblock := false;
        tree := AddGlobalConst(tree, Root, readers.constant(line));
        r := Ok(l);
      } else {
        r := ScanGlobalDefinition(l, line);
      }
    }

    method ScanGlobalDefinition(l: Locals, line: string) returns (r: Result<Locals, Fault>)
      requires RefsValid(Vars(l)) && l.state == Global
      modifies this
      ensures lines == old(lines) && state == old(state)
      ensures Outcome(r) == GlobalDefinition(classifier, readers, old(Vars(l)), line)
    {
      if classifier.isFunctionLine(line) {
        r := ScanFunctionHeader(l, line);
      } else {
        r := ScanTypeHeader(l, line);
      }
    }

    method ScanFunctionHeader(l: Locals, line: string) returns (r: Result<Locals, Fault>)
      requires RefsValid(Vars(l)) && l.state == Global && classifier.isFunctionLine(line)
      modifies this
      ensures lines == old(lines) && state == old(state)
      ensures Outcome(r) == GlobalDefinition(classifier, readers, old(Vars(l)), line)
    {
      isFirstLevelDocblock := false;
      var f := readers.functionDecl(line);
      if f.None? {
        return Err(ParamsNeverEnd(l.lineNum));
      }
      var n := |tree.functions|;
      tree := tree.(functions := tree.functions + [NewFunction(f.value)]);
      curFunction := n;
      tree := AddFunction(tree, curNamespace, n);
      bracesDiff := 0;
      r := Ok(l.(state := InFunction));
    }

    method ScanTypeHeader(l: Locals, line: string) returns (r: Result<Locals, Fault>)
      requires RefsValid(Vars(l)) && l.state == Global && !classifier.isFunctionLine(line)
      modifies this
      ensures lines == old(lines) && state == old(state)
      ensures Outcome(r) == GlobalDefinition(classifier, readers, old(Vars(l)), line)
    {
      if classifier.isClassLine(line) {
        isFirstLevelDocblock := false;
        var n := |tree.classes|;
        tree := tree.(classes := tree.classes + [NewClass(readers.classDecl(line))]);
        curClass := n;
        tree := AddClass(tree, curNamespace, n);
        r := Ok(l.(state := InClass));
      } else if classifier.isInterfaceLine(line) {
        isFirstLevelDocblock := false;
        var n := |tree.interfaces|;
        tree := tree.(interfaces := tree.interfaces + [NewInterface(readers.interfaceDecl(line))]);
        curInterface := n;
        tree := AddInterface(tree, curNamespace, n);
        r := Ok(l.(state := InInterface));
      } else if classifier.isTraitLine(line) {
        isFirstLevelDocblock := false;
        var n := |tree.traits|;
        tree := tree.(traits := tree.traits + [NewTrait(readers.traitDecl(line))]);
        curTrait := n;
        tree := AddTrait(tree, curNamespace, n);
        r := Ok(l.(state := InTrait));
      } else {
        r := Ok(l);
      }
    }

    /** The branch for `IN_DOCBLOCK` (parser.py:151-162). */
    method ScanDocblock(l: Locals, line: string) returns (r: Locals)
      requires RefsValid(Vars(l)) && l.state == InDocblock
      modifies this
      ensures lines == old(lines) && state == old(state)
      ensures Vars(r) == StepDocblock(readers, old(Vars(l)), line)
    {
      if line == "*/" {
        r := CloseDocblock(l);
      } else {
        r := l.(docblock := l.docblock + [line]);
      }
    }

    // The `*/` line of a docblock.
    method CloseDocblock(l: Locals) returns (r: Locals)
      requires RefsValid(Vars(l)) && l.state == InDocblock
      modifies this
      ensures lines == old(lines) && state == old(state)
      ensures Vars(r) == StepDocblock(readers, old(Vars(l)), "*/")
    {
      if isFirstLevelDocblock && l.prevState == Global && isPrevDocblock {
        tree := DocumentNamespace(tree, Root, curDocblock);
        isFirstLevelDocblock := false;
      }
      var d := readers.docblock(l.docblock);
      curDocblock := Parsed(d);
      isPrevDocblock := true;
      r := l.(state := l.prevState, docblock := []);
    }

    /** The branch for `IN_FUNCTION` (parser.py:163-181). */
    method ScanFunction(l: Locals, line: string) returns (r: Locals)
      requires RefsValid(Vars(l)) && l.state == InFunction && line != []
      modifies this
      ensures lines == old(lines) && state == old(state)
      ensures Vars(r) == StepFunction(classifier, readers, old(Vars(l)), line)
    {
      ghost var m := Vars(l);
      if line[0] == '{' {
        bracesDiff := bracesDiff + 1;
      } else if line[0] == '}' {
        bracesDiff := bracesDiff - 1;
      }
      assert Vars(l) == m.(bracesDiff := m.bracesDiff + Delta(line));
      if bracesDiff == 0 {
        r := EndFunctionBody(l, line, m);
      } else {
        if classifier.isGlobalVarLine(line) {
          tree := AddGlobalVar(tree, Root, readers.globalVar(line));
        }
        r := l.(sourceBlock := l.sourceBlock + [line]);
      }
    }

    // The line that brings the depth of a function body to 0; `m` is the
    // scan before the depth moved.
    method EndFunctionBody(l: Locals, line: string, ghost m: Machine) returns (r: Locals)
      requires RefsValid(m) && m.state == InFunction && line != []
      requires Vars(l) == m.(bracesDiff := m.bracesDiff + Delta(line)) && bracesDiff == 0
      modifies this
      ensures lines == old(lines) && state == old(state)
      ensures Vars(r) == StepFunction(classifier, readers, m, line)
    {
      tree := SetFunctionBody(tree, curFunction, l.sourceBlock + [line]);
      if isPrevDocblock {
        tree := DocumentFunction(tree, curFunction, curDocblock);
      }
      isPrevDocblock := false;
      r := l.(sourceBlock := [], state := Global);
    }

    /** The branch for `IN_CLASS` (parser.py:182-199). */
    method ScanClass(l: Locals, line: string) returns (r: Result<Locals, Fault>)
      requires RefsValid(Vars(l)) && l.state == InClass && NormalLine(line)
      modifies this
      ensures lines == old(lines) && state == old(state)
      ensures Outcome(r) == StepClass(classifier, readers, old(Vars(l)), line)
    {
      if line[0] == '}' {
        var n := |tree.classes|;
        tree := tree.(classes := tree.classes + [NewClass(BlankClass)]);
        curClass := n;
        isPrevDocblock := false;
        r := Ok(l.(state := Global));
      } else if line == "/**" {
        r := Ok(l.(prevState := l.state, state := InDocblock));
      } else if classifier.isPropertyVarLine(line) {
        tree := AddClassProperty(tree, curClass, readers.propertyVar(line));
        r := Ok(l);
      } else if classifier.isPropertyConstLine(line) {
        var k := readers.propertyConst(line);
        if k.None? {
          return Err(NotPropertyConst(l.lineNum));
        }
        tree := AddClassConstant(tree, curClass, k.value);
        r := Ok(l);
      } else if classifier.isMethodLine(line) {
        var d := readers.methodDecl(line);
        if d.None? {
          return Err(ParamsNeverEnd(l.lineNum));
        }
        var n := |tree.methods|;
        tree := tree.(methods := tree.methods + [NewMethod(d.value)]);
        curMethod := n;
        tree := AddClassMethod(tree, curClass, n);
        bracesDiff := 0;
        r := Ok(l.(prevState := l.state, state := InMethod));
      } else {
        r := Ok(l);
      }
    }

    /** The branch for `IN_INTERFACE` (parser.py:200-212). */
    method ScanInterface(l: Locals, line: string) returns (r: Result<Locals, Fault>)
      requires RefsValid(Vars(l)) && l.state == InInterface && NormalLine(line)
      modifies this
      ensures lines == old(lines) && state == old(state)
      ensures Outcome(r) == StepInterface(classifier, readers, old(Vars(l)), line)
    {
      if line[0] == '}' {
        var n := |tree.interfaces|;
        tree := tree.(interfaces := tree.interfaces + [NewInterface(BlankInterface)]);
        curInterface := n;
        isPrevDocblock := false;
        r := Ok(l.(state := Global));
      } else if line == "/**" {
        r := Ok(l.(prevState := l.state, state := InDocblock));
      } else if classifier.isPropertyConstLine(line) {
        var k := readers.propertyConst(line);
        if k.None? {
          return Err(NotPropertyConst(l.lineNum));
        }
        tree := AddInterfaceConstant(tree, curInterface, k.value);
        r := Ok(l);
      } else if classifier.isMethodLine(line) {
        var d := readers.methodDecl(line);
        if d.None? {
          return Err(ParamsNeverEnd(l.lineNum));
        }
        var n := |tree.methods|;
        tree := tree.(methods := tree.methods + [NewMethod(d.value)]);
        tree := AddInterfaceMethod(tree, curInterface, n);
        bracesDiff := 0;
        r := Ok(l);
      } else {
        r := Ok(l);
      }
    }

    /** The branch for `IN_TRAIT` (parser.py:213-228). */
    method ScanTrait(l: Locals, line: string) returns (r: Result<Locals, Fault>)
      requires RefsValid(Vars(l)) && l.state == InTrait && NormalLine(line)
      modifies this
      ensures lines == old(lines) && state == old(state)
      ensures Outcome(r) == StepTrait(classifier, readers, old(Vars(l)), line)
    {
      if line[0] == '}' {
        var n := |tree.traits|;
        tree := tree.(traits := tree.traits + [NewTrait(BlankTrait)]);
        curTrait := n;
        isPrevDocblock := false;
        r := Ok(l.(state := Global));
      } else if line == "/**" {
        r := Ok(l.(prevState := l.state, state := InDocblock));
      } else if classifier.isPropertyVarLine(line) {
        tree := AddTraitProperty(tree, curTrait, readers.propertyVar(line));
        r := Ok(l);
      } else if classifier.isMethodLine(line) {
        var d := readers.methodDecl(line);
        if d.None? {
          return Err(ParamsNeverEnd(l.lineNum));
        }
        var n := |tree.methods|;
        tree := tree.(methods := tree.methods + [NewMethod(d.value)]);
        curMethod := n;
        tree := AddTraitMethod(tree, curTrait, n);
        bracesDiff := 0;
        r := Ok(l.(prevState := l.state, state := InMethod));
      } else {
        r := Ok(l);
      }
    }

    /** The branch for `IN_METHOD` (parser.py:229-248). */
    method ScanMethod(l: Locals, line: string) returns (r: Locals)
      requires RefsValid(Vars(l)) && l.state == InMethod && line != []
      modifies this
      ensures lines == old(lines) && state == old(state)
      ensures Vars(r) == StepMethod(old(Vars(l)), line)
    {
      if line[0] == '{' {
        bracesDiff := bracesDiff + 1;
      } else if line[0] == '}' {
        bracesDiff := bracesDiff - 1;
      }
      if bracesDiff == 0 {
        tree := SetMethodBody(tree, curMethod, l.sourceBlock + [line]);
        isPrevDocblock := false;
        r := l.(sourceBlock := [], state := l.prevState);
      } else {
        r := l.(sourceBlock := l.sourceBlock + [line]);
      }
    }

    /** One pass of the loop body: count the line, then run the branch of
        the current state. */
    method ScanLine(l: Locals, line: string) returns (r: Result<Locals, Fault>)
      requires RefsValid(Vars(l)) && NormalLine(line)
      modifies this
      ensures lines == old(lines) && state == old(state)
      ensures Outcome(r) == Step(classifier, readers, old(Vars(l)), line)
    {
      var l0 := l.(lineNum := l.lineNum + 1);
      ghost var m := Vars(l);
      ghost var m0 := Vars(l0);
      assert m0 == m.(lineNum := m.lineNum + 1);
      StepDispatch(classifier, readers, m, line);
      if l0.state == OutOfPhp {
        r := ScanOutOfPhp(l0, line);
      } else if l0.state == Global {
        r := ScanGlobal(l0, line);
      } else if l0.state == InDocblock {
        var l1 := ScanDocblock(l0, line);
        r := Ok(l1);
      } else if l0.state == InFunction {
        var l1 := ScanFunction(l0, line);
        r := Ok(l1);
      } else if l0.state == InClass {
        r := ScanClass(l0, line);
      } else if l0.state == InInterface {
        r := ScanInterface(l0, line);
      } else if l0.state == InTrait {
        r := ScanTrait(l0, line);
      } else {
        var l1 := ScanMethod(l0, line);
        r := Ok(l1);
      }
    }

    /** `parse` (parser.py:90-249): the scan of the lines from the fields
        as they are. It stops with the fault `Steps` reports, or returns
        the root namespace with the fields holding the variables `Steps`
        ends with. */
    method Parse() returns (r: Result<Ref, Fault>)
      requires Valid()
      modifies this
      ensures lines == old(lines) && state == old(state)
      ensures var run := Steps(classifier, readers, old(Start()), lines);
              && (r.Ok? <==> run.Ok?)
              && (r.Err? ==> r.error == run.error)
              && (r.Ok? ==> r.value == Root && Valid() && Holds(run.value))
    {
      var l := Locals(state, state, [], [], 0);
      ghost var run := Steps(classifier, readers, Vars(l), lines);
      for i := 0 to |lines|
        invariant lines == old(lines) && state == old(state)
        invariant RefsValid(Vars(l))
        invariant Steps(classifier, readers, Vars(l), lines[i..]) == run
      {
        var line := lines[i];
        var s := ScanLine(l, line);
        match s
        case Err(e) =>
          return Err(e);
        case Ok(l1) =>
          l := l1;
      }
      assert Vars(l) == run.value;
      r := Ok(Root);
    }
  }
}
