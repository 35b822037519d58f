/** The scan of `Parser.parse` (parser.py:90-249) as a state machine over
    the normalised lines. `Step` is what one pass of the loop body does to
    the scan's variables and to the declaration tree; `Steps` folds it over
    a list of lines. The imperative `Parser.Parse` is proved to compute the
    same thing, and the properties of the scan are proved here about
    `Step` and `Steps`.

    The `utils` recognisers (`is_namespace_line`, `is_function_line`, ...)
    are not part of this model: they are the fields of a `Classifier`, and
    everything proved here holds whatever they answer. */
module ScopeMachine {
  import opened Wrappers
  import opened PyStr
  import opened Lines
  import opened Docs
  import opened Items
  import opened Extractors

  /** The `State` enumeration of parser.py:18-26. */
  datatype State = Global | InClass | InInterface | InTrait | OutOfPhp | InDocblock | InFunction | InMethod

  /** The line recognisers imported from `utils`. */
  datatype Classifier = Classifier(
    isNamespaceLine: string -> bool,
    isGlobalVarLine: string -> bool,
    isVarLine: string -> bool,
    isDefineLine: string -> bool,
    isConstLine: string -> bool,
    isFunctionLine: string -> bool,
    isClassLine: string -> bool,
    isInterfaceLine: string -> bool,
    isTraitLine: string -> bool,
    isPropertyVarLine: string -> bool,
    isPropertyConstLine: string -> bool,
    isMethodLine: string -> bool)

  /** The line readers `parse` calls, `parser_namespace` to
      `parser_docblock`. The scan is stated for any readers; `Php` gives
      the ones of parser.py. */
  datatype Readers = Readers(
    namespaceName: string -> string,
    globalVar: string -> GlobalVar,
    variable: string -> GlobalVar,
    define: string -> GlobalConst,
    constant: string -> GlobalConst,
    functionDecl: string -> Option<FunctionDecl>,
    classDecl: string -> ClassDecl,
    interfaceDecl: string -> InterfaceDecl,
    traitDecl: string -> TraitDecl,
    propertyVar: string -> Option<Property>,
    propertyConst: string -> Option<Const>,
    methodDecl: string -> Option<MethodDecl>,
    docblock: seq<string> -> Option<Docblock>)

  /** The readers of parser.py:252-562; `None` from `functionDecl` and
      `methodDecl` stands for a parameter list walked forever, from
      `propertyConst` for the exception `parser_property_const` raises. */
  const Php: Readers := Readers(ParseNamespace, ParseGlobalVar, ParseVar, ParseDefine, ParseConst,
                                FunctionDeclOf, ParseClass, ParseInterface, ParseTrait,
                                PropertyVarOf, ParsePropertyConst, MethodDeclOf, DocblockOf)

  /** The ways the scan stops without returning the tree, each with the
      1-based number of the line: the `sys.exit` of a file that does not
      open with `<?php`, the exception `parser_property_const` raises, and
      a parameter list that `parser_function` or `parser_method` walks
      forever. */
  datatype Fault =
    | NotPhpOpen(lineNum: nat)
    | NotPropertyConst(lineNum: nat)
    | ParamsNeverEnd(lineNum: nat)

  /** The variables of the scan: the locals of `parse` (`state`,
      `prev_state`, `docblock`, `source_block`, `line_num`) and the fields
      of the parser object, with every object created so far in `tree`. */
  datatype Machine = Machine(
    state: State,
    prevState: State,
    docblock: seq<string>,
    sourceBlock: seq<string>,
    lineNum: nat,
    tree: Tree,
    curNamespace: Ref,
    curFunction: Ref,
    curClass: Ref,
    curInterface: Ref,
    curTrait: Ref,
    curMethod: Ref,
    bracesDiff: int,
    isPrevDocblock: bool,
    isFirstLevelDocblock: bool,
    curDocblock: Pending)

  /** The root namespace `Namespace('/')` is the first namespace. */
  const Root: Ref := 0

  /** The objects `Parser.__init__` creates (parser.py:42-61): the root
      namespace and the placeholders the `cur_*` fields start on. */
  const InitialTree: Tree := Tree([NewNamespace("/")], [NewFunction(BlankFunction)], [NewClass(BlankClass)],
                                  [NewInterface(BlankInterface)], [NewTrait(BlankTrait)], [NewMethod(BlankMethod)])

  /** The scan's variables before the first line (parser.py:31-72, 91-95). */
  function Init(): (m: Machine)
    ensures Valid(m) && m.state == OutOfPhp && m.tree.namespaces[Root] == NewNamespace("/")
  {
    Machine(OutOfPhp, OutOfPhp, [], [], 0, InitialTree, Root, 0, 0, 0, 0, 0, 0, false, true, DocblockClass)
  }

  // ---------------------------------------------------------------------
  // The invariant of the scan.

  /** Every `cur_*` field designates an object of the tree. */
  predicate RefsValid(m: Machine) {
    && 0 < |m.tree.namespaces| && m.curNamespace < |m.tree.namespaces|
    && m.curFunction < |m.tree.functions| && m.curClass < |m.tree.classes|
    && m.curInterface < |m.tree.interfaces| && m.curTrait < |m.tree.traits| && m.curMethod < |m.tree.methods|
  }

  /** A method is only entered from a class or a trait, a docblock only
      from the global scope or a type body; the accumulators are empty
      outside the states that fill them, and a docblock is pending only
      after one was parsed. */
  predicate StatesValid(m: Machine) {
    && (m.state == InMethod ==> m.prevState == InClass || m.prevState == InTrait)
    && (m.state == InDocblock ==> m.prevState == Global || m.prevState == InClass || m.prevState == InInterface || m.prevState == InTrait)
    && (m.state != InDocblock ==> m.docblock == [])
    && (m.state != InFunction && m.state != InMethod ==> m.sourceBlock == [])
    && (m.isPrevDocblock ==> m.curDocblock.Parsed?)
  }

  /** The root namespace receives documentation at most once, and only
      while the first-level flag still holds. */
  predicate DocsValid(m: Machine)
    requires RefsValid(m)
  {
    && |m.tree.namespaces[Root].docs| <= 1
    && (|m.tree.namespaces[Root].docs| == 1 ==> !m.isFirstLevelDocblock)
  }

  predicate Valid(m: Machine) {
    RefsValid(m) && StatesValid(m) && DocsValid(m)
  }

  // ---------------------------------------------------------------------
  // One line, state by state (parser.py:98-248). `m.lineNum` already
  // counts the line.

  /** `self.cur_namespace = self.root_namespace.add_namespace(...)`: a new
      namespace, listed under the root, becomes the current one. */
  function EnterNamespace(m: Machine, name: string): (m': Machine)
    requires RefsValid(m)
    ensures RefsValid(m')
    ensures m'.tree.namespaces[Root].docs == m.tree.namespaces[Root].docs
    ensures m'.curNamespace == |m.tree.namespaces|
    ensures var root := m.tree.namespaces[Root];
      m'.tree == m.tree.(namespaces := m.tree.namespaces[Root := root.(namespaces := root.namespaces + [|m.tree.namespaces|])]
                                       + [NewNamespace(name)])
    ensures m' == m.(tree := m'.tree, curNamespace := m'.curNamespace)
  {
    var r := |m.tree.namespaces|;
    m.(tree := AddNamespace(m.tree.(namespaces := m.tree.namespaces + [NewNamespace(name)]), Root, r), curNamespace := r)
  }

  /** Outside PHP only a line that opens with `<?php` is accepted; it
      leads into the global scope, and into a new namespace when the line
      declares one. */
  function StepOutOfPhp(c: Classifier, rd: Readers, m: Machine, line: string): (r: Result<Machine, Fault>)
    requires RefsValid(m) && m.state == OutOfPhp
    ensures r.Ok? ==> RefsValid(r.value)
    ensures Valid(m) && r.Ok? ==> Valid(r.value)
    ensures r.Err? ==> r.error.lineNum == m.lineNum
  {
    if Find(line, "<?php") == 0 then
      var m1 := if c.isNamespaceLine(line) then EnterNamespace(m, rd.namespaceName(line)) else m;
      Ok(m1.(prevState := m.state, state := Global))
    else
      Err(NotPhpOpen(m.lineNum))
  }

  /** `self.cur_function = parser_function(line)` and
      `self.cur_namespace.add_function(...)`: a new function, listed under
      the current namespace, becomes the current one, and its body starts
      at depth 0. */
  function EnterFunction(m: Machine, f: FunctionDecl): (m': Machine)
    requires RefsValid(m)
    ensures RefsValid(m')
    ensures Valid(m) && m.state == Global ==> Valid(m')
    ensures m'.curFunction == |m.tree.functions|
    ensures var ns := m.tree.namespaces[m.curNamespace];
      m'.tree == m.tree.(functions := m.tree.functions + [NewFunction(f)],
                         namespaces := m.tree.namespaces[m.curNamespace := ns.(functions := ns.functions + [|m.tree.functions|])])
    ensures m' == m.(tree := m'.tree, curFunction := m'.curFunction, isFirstLevelDocblock := false, bracesDiff := 0, state := InFunction)
  {
    var r := |m.tree.functions|;
    m.(tree := AddFunction(m.tree.(functions := m.tree.functions + [NewFunction(f)]), m.curNamespace, r), curFunction := r,
       isFirstLevelDocblock := false, bracesDiff := 0, state := InFunction)
  }

  /** The same for a class, an interface and a trait, whose bodies have no
      depth count. */
  function EnterClass(m: Machine, d: ClassDecl): (m': Machine)
    requires RefsValid(m)
    ensures RefsValid(m')
    ensures Valid(m) && m.state == Global ==> Valid(m')
    ensures m'.curClass == |m.tree.classes|
    ensures var ns := m.tree.namespaces[m.curNamespace];
      m'.tree == m.tree.(classes := m.tree.classes + [NewClass(d)],
                         namespaces := m.tree.namespaces[m.curNamespace := ns.(classes := ns.classes + [|m.tree.classes|])])
    ensures m' == m.(tree := m'.tree, curClass := m'.curClass, isFirstLevelDocblock := false, state := InClass)
  {
    var r := |m.tree.classes|;
    m.(tree := AddClass(m.tree.(classes := m.tree.classes + [NewClass(d)]), m.curNamespace, r), curClass := r,
       isFirstLevelDocblock := false, state := InClass)
  }

  function EnterInterface(m: Machine, d: InterfaceDecl): (m': Machine)
    requires RefsValid(m)
    ensures RefsValid(m')
    ensures Valid(m) && m.state == Global ==> Valid(m')
    ensures m'.curInterface == |m.tree.interfaces|
    ensures var ns := m.tree.namespaces[m.curNamespace];
      m'.tree == m.tree.(interfaces := m.tree.interfaces + [NewInterface(d)],
                         namespaces := m.tree.namespaces[m.curNamespace := ns.(interfaces := ns.interfaces + [|m.tree.interfaces|])])
    ensures m' == m.(tree := m'.tree, curInterface := m'.curInterface, isFirstLevelDocblock := false, state := InInterface)
  {
    var r := |m.tree.interfaces|;
    m.(tree := AddInterface(m.tree.(interfaces := m.tree.interfaces + [NewInterface(d)]), m.curNamespace, r), curInterface := r,
       isFirstLevelDocblock := false, state := InInterface)
  }

  function EnterTrait(m: Machine, d: TraitDecl): (m': Machine)
    requires RefsValid(m)
    ensures RefsValid(m')
    ensures Valid(m) && m.state == Global ==> Valid(m')
    ensures m'.curTrait == |m.tree.traits|
    ensures var ns := m.tree.namespaces[m.curNamespace];
      m'.tree == m.tree.(traits := m.tree.traits + [NewTrait(d)],
                         namespaces := m.tree.namespaces[m.curNamespace := ns.(traits := ns.traits + [|m.tree.traits|])])
    ensures m' == m.(tree := m'.tree, curTrait := m'.curTrait, isFirstLevelDocblock := false, state := InTrait)
  {
    var r := |m.tree.traits|;
    m.(tree := AddTrait(m.tree.(traits := m.tree.traits + [NewTrait(d)]), m.curNamespace, r), curTrait := r,
       isFirstLevelDocblock := false, state := InTrait)
  }

  /** The global scope: the first recogniser that accepts the line decides
      what it declares; a line none accepts is skipped. */
  function StepGlobal(c: Classifier, rd: Readers, m: Machine, line: string): (r: Result<Machine, Fault>)
    requires RefsValid(m) && m.state == Global
    ensures r.Ok? ==> RefsValid(r.value)
    ensures Valid(m) && r.Ok? ==> Valid(r.value)
    ensures r.Err? ==> r.error.lineNum == m.lineNum
  {
    if line == "?>" then Ok(m.(state := OutOfPhp))
    else if line == "/**" then Ok(m.(prevState := Global, state := InDocblock))
    else if c.isNamespaceLine(line) then
      Ok(EnterNamespace(m.(isFirstLevelDocblock := false, isPrevDocblock := false), rd.namespaceName(line)))
    else GlobalDeclaration(c, rd, m, line)
  }

  /** Variables and constants of the global scope go to the root
      namespace. */
  function GlobalDeclaration(c: Classifier, rd: Readers, m: Machine, line: string): (r: Result<Machine, Fault>)
    requires RefsValid(m) && m.state == Global
    ensures r.Ok? ==> RefsValid(r.value)
    ensures Valid(m) && r.Ok? ==> Valid(r.value)
  {
    if c.isGlobalVarLine(line) then
      Ok(m.(isFirstLevelDocblock := false, tree := AddGlobalVar(m.tree, Root, rd.globalVar(line))))
    else if c.isVarLine(line) then
      Ok(m.(isFirstLevelDocblock := false, tree := AddGlobalVar(m.tree, Root, rd.variable(line))))
    else if c.isDefineLine(line) then
      Ok(m.(isFirstLevelDocblock := false, tree := AddGlobalConst(m.tree, Root, rd.define(line))))
    else if c.isConstLine(line) then
      Ok(m.(isFirstLevelDocblock := false, tree := AddGlobalConst(m.tree, Root, rd.constant(line))))
    else GlobalDefinition(c, rd, m, line)
  }

  /** Functions, classes, interfaces and traits go to the current
      namespace and open their body. */
  function GlobalDefinition(c: Classifier, rd: Readers, m: Machine, line: string): (r: Result<Machine, Fault>)
    requires RefsValid(m) && m.state == Global
    ensures r.Ok? ==> RefsValid(r.value)
    ensures Valid(m) && r.Ok? ==> Valid(r.value)
  {
    if c.isFunctionLine(line) then
      match rd.functionDecl(line)
      case None => Err(ParamsNeverEnd(m.lineNum))
      case Some(f) =>
        Ok(EnterFunction(m, f))
    else if c.isClassLine(line) then Ok(EnterClass(m, rd.classDecl(line)))
    else if c.isInterfaceLine(line) then Ok(EnterInterface(m, rd.interfaceDecl(line)))
    else if c.isTraitLine(line) then Ok(EnterTrait(m, rd.traitDecl(line)))
    else Ok(m)
  }

  // Whether the closing `*/` line hands the pending docblock to the root
  // namespace (parser.py:154).
  predicate ToRoot(m: Machine) {
    m.isFirstLevelDocblock && m.prevState == Global && m.isPrevDocblock
  }

  // Inside a docblock: lines accumulate until `*/`, which parses them,
  // makes them the pending docblock and returns to the saved state; the
  // earlier pending docblock goes to the root namespace when `ToRoot`
  // holds. Functions, classes and methods are left as they were.
  function StepDocblock(rd: Readers, m: Machine, line: string): (r: Machine)
    requires RefsValid(m) && m.state == InDocblock
    ensures RefsValid(r)
    ensures Valid(m) ==> Valid(r)
  {
    if line == "*/" then
      var toRoot := ToRoot(m);
      m.(tree := if toRoot then DocumentNamespace(m.tree, Root, m.curDocblock) else m.tree,
         isFirstLevelDocblock := if toRoot then false else m.isFirstLevelDocblock,
         state := m.prevState,
         curDocblock := Parsed(rd.docblock(m.docblock)),
         docblock := [],
         isPrevDocblock := true)
    else
      m.(docblock := m.docblock + [line])
  }

  /** The body of a global function: the depth moves by the first
      character only; the line that brings it to zero is stored as the
      last line of the body, and the pending docblock, if any, goes to the
      function; `$GLOBALS` lines before it are declared in the root
      namespace. Nothing else changes. */
  function StepFunction(c: Classifier, rd: Readers, m: Machine, line: string): (r: Machine)
    requires RefsValid(m) && m.state == InFunction && line != []
    ensures RefsValid(r)
    ensures Valid(m) ==> Valid(r)
  {
    var d := m.bracesDiff + Delta(line);
    if d == 0 then
      var t := SetFunctionBody(m.tree, m.curFunction, m.sourceBlock + [line]);
      m.(bracesDiff := d,
         tree := if m.isPrevDocblock then DocumentFunction(t, m.curFunction, m.curDocblock) else t,
         sourceBlock := [],
         state := Global,
         isPrevDocblock := false)
    else
      m.(bracesDiff := d,
         tree := if c.isGlobalVarLine(line) then AddGlobalVar(m.tree, Root, rd.globalVar(line)) else m.tree,
         sourceBlock := m.sourceBlock + [line])
  }

  // A class body: `}` ends it, `/**` opens a docblock, and properties,
  // constants and methods are added to the current class; a method
  // header leads into the method's body.
  function StepClass(c: Classifier, rd: Readers, m: Machine, line: string): (r: Result<Machine, Fault>)
    requires RefsValid(m) && m.state == InClass && NormalLine(line)
    ensures r.Ok? ==> RefsValid(r.value)
    ensures Valid(m) && r.Ok? ==> Valid(r.value)
    ensures r.Err? ==> r.error.lineNum == m.lineNum
  {
    if line[0] == '}' then
      Ok(m.(tree := m.tree.(classes := m.tree.classes + [NewClass(BlankClass)]), curClass := |m.tree.classes|,
            state := Global, isPrevDocblock := false))
    else if line == "/**" then Ok(m.(prevState := InClass, state := InDocblock))
    else if c.isPropertyVarLine(line) then
      Ok(m.(tree := AddClassProperty(m.tree, m.curClass, rd.propertyVar(line))))
    else if c.isPropertyConstLine(line) then
      match rd.propertyConst(line)
      case None => Err(NotPropertyConst(m.lineNum))
      case Some(k) => Ok(m.(tree := AddClassConstant(m.tree, m.curClass, k)))
    else if c.isMethodLine(line) then
      match rd.methodDecl(line)
      case None => Err(ParamsNeverEnd(m.lineNum))
      case Some(d) =>
        var r := |m.tree.methods|;
        Ok(m.(prevState := InClass, state := InMethod,
              tree := AddClassMethod(m.tree.(methods := m.tree.methods + [NewMethod(d)]), m.curClass, r),
              curMethod := r, bracesDiff := 0))
    else Ok(m)
  }

  /** An interface body: methods are added to the interface without
      leaving it (an interface method has no body), and the current method
      is left as it was. */
  function StepInterface(c: Classifier, rd: Readers, m: Machine, line: string): (r: Result<Machine, Fault>)
    requires RefsValid(m) && m.state == InInterface && NormalLine(line)
    ensures r.Ok? ==> RefsValid(r.value)
    ensures Valid(m) && r.Ok? ==> Valid(r.value)
    ensures r.Err? ==> r.error.lineNum == m.lineNum
  {
    if line[0] == '}' then
      Ok(m.(tree := m.tree.(interfaces := m.tree.interfaces + [NewInterface(BlankInterface)]), curInterface := |m.tree.interfaces|,
            state := Global, isPrevDocblock := false))
    else if line == "/**" then Ok(m.(prevState := InInterface, state := InDocblock))
    else if c.isPropertyConstLine(line) then
      match rd.propertyConst(line)
      case None => Err(NotPropertyConst(m.lineNum))
      case Some(k) => Ok(m.(tree := AddInterfaceConstant(m.tree, m.curInterface, k)))
    else if c.isMethodLine(line) then
      match rd.methodDecl(line)
      case None => Err(ParamsNeverEnd(m.lineNum))
      case Some(d) =>
        var r := |m.tree.methods|;
        Ok(m.(tree := AddInterfaceMethod(m.tree.(methods := m.tree.methods + [NewMethod(d)]), m.curInterface, r),
              bracesDiff := 0))
    else Ok(m)
  }

  /** A trait body: like a class body, without constants. */
  function StepTrait(c: Classifier, rd: Readers, m: Machine, line: string): (r: Result<Machine, Fault>)
    requires RefsValid(m) && m.state == InTrait && NormalLine(line)
    ensures r.Ok? ==> RefsValid(r.value)
    ensures Valid(m) && r.Ok? ==> Valid(r.value)
    ensures r.Err? ==> r.error.lineNum == m.lineNum
  {
    if line[0] == '}' then
      Ok(m.(tree := m.tree.(traits := m.tree.traits + [NewTrait(BlankTrait)]), curTrait := |m.tree.traits|,
            state := Global, isPrevDocblock := false))
    else if line == "/**" then Ok(m.(prevState := InTrait, state := InDocblock))
    else if c.isPropertyVarLine(line) then
      Ok(m.(tree := AddTraitProperty(m.tree, m.curTrait, rd.propertyVar(line))))
    else if c.isMethodLine(line) then
      match rd.methodDecl(line)
      case None => Err(ParamsNeverEnd(m.lineNum))
      case Some(d) =>
        var r := |m.tree.methods|;
        Ok(m.(prevState := InTrait, state := InMethod,
              tree := AddTraitMethod(m.tree.(methods := m.tree.methods + [NewMethod(d)]), m.curTrait, r),
              curMethod := r, bracesDiff := 0))
    else Ok(m)
  }

  /** The body of a method: as the body of a function, except that the
      closing line returns to the state saved on entry, and `$GLOBALS`
      lines and docblocks are not looked at. Nothing else changes. */
  function StepMethod(m: Machine, line: string): (r: Machine)
    requires RefsValid(m) && m.state == InMethod && line != []
    ensures RefsValid(r)
    ensures Valid(m) ==> Valid(r)
  {
    var d := m.bracesDiff + Delta(line);
    if d == 0 then
      m.(bracesDiff := d,
         tree := SetMethodBody(m.tree, m.curMethod, m.sourceBlock + [line]),
         sourceBlock := [],
         state := m.prevState,
         isPrevDocblock := false)
    else
      m.(bracesDiff := d, sourceBlock := m.sourceBlock + [line])
  }

  /** A normal line has no trailing blank, so it is never `"static "`,
      the one non-empty line `parser_property_var` cannot index. */
  lemma NormalNotStatic(line: string)
    requires NormalLine(line)
    ensures line != [] && line != "static "
  {
  }

  // ---------------------------------------------------------------------
  // The loop.

  /** One pass of the loop body: `line_num` counts the line, then the
      branch of the current state runs. */
  function Step(c: Classifier, rd: Readers, m: Machine, line: string): (r: Result<Machine, Fault>)
    requires RefsValid(m) && NormalLine(line)
    ensures r.Ok? ==> RefsValid(r.value)
    ensures Valid(m) && r.Ok? ==> Valid(r.value)
    ensures r.Err? ==> r.error.lineNum == m.lineNum + 1
  {
    var m0 := m.(lineNum := m.lineNum + 1);
    CountKeeps(m);
    match m.state
    case OutOfPhp => StepOutOfPhp(c, rd, m0, line)
    case Global => StepGlobal(c, rd, m0, line)
    case InDocblock => Ok(StepDocblock(rd, m0, line))
    case InFunction => Ok(StepFunction(c, rd, m0, line))
    case InClass => StepClass(c, rd, m0, line)
    case InInterface => StepInterface(c, rd, m0, line)
    case InTrait => StepTrait(c, rd, m0, line)
    case InMethod => Ok(StepMethod(m0, line))
  }

  /** Counting a line changes neither the objects nor the states. */
  lemma CountKeeps(m: Machine)
    requires RefsValid(m)
    ensures RefsValid(m.(lineNum := m.lineNum + 1))
    ensures Valid(m) ==> Valid(m.(lineNum := m.lineNum + 1))
  {
  }

  /** The branch `Step` takes in each state. */
  lemma StepDispatch(c: Classifier, rd: Readers, m: Machine, line: string)
    requires RefsValid(m) && NormalLine(line)
    ensures var m0 := m.(lineNum := m.lineNum + 1);
      && (m.state == OutOfPhp ==> Step(c, rd, m, line) == StepOutOfPhp(c, rd, m0, line))
      && (m.state == Global ==> Step(c, rd, m, line) == StepGlobal(c, rd, m0, line))
      && (m.state == InDocblock ==> Step(c, rd, m, line) == Ok(StepDocblock(rd, m0, line)))
      && (m.state == InFunction ==> Step(c, rd, m, line) == Ok(StepFunction(c, rd, m0, line)))
      && (m.state == InClass ==> Step(c, rd, m, line) == StepClass(c, rd, m0, line))
      && (m.state == InInterface ==> Step(c, rd, m, line) == StepInterface(c, rd, m0, line))
      && (m.state == InTrait ==> Step(c, rd, m, line) == StepTrait(c, rd, m0, line))
      && (m.state == InMethod ==> Step(c, rd, m, line) == Ok(StepMethod(m0, line)))
  {
    CountKeeps(m);
    match m.state
    case OutOfPhp =>
    case Global =>
    case InDocblock =>
    case InFunction =>
    case InClass =>
    case InInterface =>
    case InTrait =>
    case InMethod =>
  }

  /** The loop over `lines` from the variables `m`: the variables after the
      last line, or the fault that stopped the scan. Every `cur_*` field
      still designates an object. */
  function Steps(c: Classifier, rd: Readers, m: Machine, lines: seq<string>): (r: Result<Machine, Fault>)
    requires RefsValid(m) && AllNormal(lines)
    ensures r.Ok? ==> RefsValid(r.value)
    decreases |lines|
  {
    if lines == [] then Ok(m)
    else
      match Step(c, rd, m, lines[0])
      case Err(e) => Err(e)
      case Ok(m1) =>
        Steps(c, rd, m1, lines[1..])
  }

  /** `Parser.parse` on the normalised lines of a file. */
  function Run(c: Classifier, rd: Readers, lines: seq<string>): Result<Machine, Fault>
    requires AllNormal(lines)
  {
    Steps(c, rd, Init(), lines)
  }

  /** The invariant holds after every line of the scan. */
  lemma {:induction false} StepsKeep(c: Classifier, rd: Readers, m: Machine, lines: seq<string>)
    requires Valid(m) && AllNormal(lines)
    ensures Steps(c, rd, m, lines).Ok? ==> Valid(Steps(c, rd, m, lines).value)
    decreases |lines|
  {
    if lines != [] && Step(c, rd, m, lines[0]).Ok? {
      StepsKeep(c, rd, Step(c, rd, m, lines[0]).value, lines[1..]);
    }
  }

  /** The invariant holds when the scan of a file ends. */
  lemma RunKeeps(c: Classifier, rd: Readers, lines: seq<string>)
    requires AllNormal(lines)
    ensures Run(c, rd, lines).Ok? ==> Valid(Run(c, rd, lines).value)
  {
    StepsKeep(c, rd, Init(), lines);
  }
}
