/** What one line does to the scan of `Parser.parse`, state by state
    (parser.py:98-248), and what a whole body or docblock does. Every law
    holds for any `Classifier` and any `Readers`. */
module ScopeLaws {
  import opened Wrappers
  import opened PyStr
  import opened Lines
  import opened Docs
  import opened Items
  import opened ScopeMachine

  // ---------------------------------------------------------------------
  // Leaving and re-entering PHP (parser.py:98-109).

  /** Only a line that starts with `<?php` leaves `OUT_OF_PHP`, into the
      global scope; any other line is the fatal format error of that line.
      A namespace declared on the opening line becomes the current one. */
  lemma LeaveOutOfPhp(c: Classifier, rd: Readers, m: Machine, line: string)
    requires RefsValid(m) && NormalLine(line) && m.state == OutOfPhp
    ensures var r := Step(c, rd, m, line);
            && (r.Ok? <==> StartsWith(line, "<?php"))
            && (r.Err? ==> r.error == NotPhpOpen(m.lineNum + 1))
            && (r.Ok? ==> r.value.state == Global && r.value.prevState == OutOfPhp)
            && (r.Ok? && c.isNamespaceLine(line) ==>
                  && r.value.curNamespace == |m.tree.namespaces|
                  && r.value.tree.namespaces ==
                       m.tree.namespaces[Root := m.tree.namespaces[Root].(namespaces := m.tree.namespaces[Root].namespaces + [|m.tree.namespaces|])]
                       + [NewNamespace(rd.namespaceName(line))])
            && (r.Ok? && !c.isNamespaceLine(line) ==> r.value.tree == m.tree)
  {
  }

  /** `?>` in the global scope leads out of PHP and changes nothing else. */
  lemma CloseTag(c: Classifier, rd: Readers, m: Machine)
    requires RefsValid(m) && m.state == Global
    ensures Step(c, rd, m, "?>") == Ok(m.(lineNum := m.lineNum + 1, state := OutOfPhp))
  {
  }

  /** A global line no recogniser accepts is skipped. */
  lemma UnrecognisedSkipped(c: Classifier, rd: Readers, m: Machine, line: string)
    requires RefsValid(m) && NormalLine(line) && m.state == Global && line != "?>" && line != "/**"
    requires !c.isNamespaceLine(line) && !c.isGlobalVarLine(line) && !c.isVarLine(line) && !c.isDefineLine(line)
    requires !c.isConstLine(line) && !c.isFunctionLine(line) && !c.isClassLine(line)
    requires !c.isInterfaceLine(line) && !c.isTraitLine(line)
    ensures Step(c, rd, m, line) == Ok(m.(lineNum := m.lineNum + 1))
  {
  }

  // ---------------------------------------------------------------------
  // Declarations in the global scope: the first recogniser that accepts
  // the line decides (parser.py:110-150).

  /** A `$GLOBALS` line declares its variable in the root namespace, both
      in the global scope (when no earlier recogniser takes the line) and
      in a function body (on any line but the closing one); nothing else
      of the tree changes. */
  lemma GlobalsToRoot(c: Classifier, rd: Readers, m: Machine, line: string)
    requires RefsValid(m) && NormalLine(line) && c.isGlobalVarLine(line)
    requires m.state == Global ==> line != "?>" && line != "/**" && !c.isNamespaceLine(line)
    requires m.state == InFunction ==> m.bracesDiff + Delta(line) != 0
    requires m.state == Global || m.state == InFunction
    ensures var r := Step(c, rd, m, line);
            && r.Ok?
            && r.value.tree == AddGlobalVar(m.tree, Root, rd.globalVar(line))
            && r.value.tree.namespaces[Root].globalVars == m.tree.namespaces[Root].globalVars + [rd.globalVar(line)]
  {
  }

  /** A namespace line in the global scope clears both docblock flags;
      the new namespace is listed under the root namespace and becomes the
      current one. Nothing else changes. */
  lemma NamespaceInGlobal(c: Classifier, rd: Readers, m: Machine, line: string)
    requires RefsValid(m) && NormalLine(line) && m.state == Global
    requires line != "?>" && line != "/**" && c.isNamespaceLine(line)
    ensures var r := Step(c, rd, m, line);
            var root := m.tree.namespaces[Root];
            && r.Ok? && r.value.curNamespace == |m.tree.namespaces|
            && r.value.tree == m.tree.(namespaces := m.tree.namespaces[Root := root.(namespaces := root.namespaces + [|m.tree.namespaces|])]
                                                      + [NewNamespace(rd.namespaceName(line))])
            && r.value == m.(lineNum := m.lineNum + 1, isFirstLevelDocblock := false, isPrevDocblock := false,
                             curNamespace := r.value.curNamespace, tree := r.value.tree)
  {
    StepDispatch(c, rd, m, line);
  }

  // The lines that get past the `?>`, docblock, namespace, variable and
  // constant tests of the global scope (parser.py:107-128).
  predicate PastDeclarations(c: Classifier, line: string) {
    && line != "?>" && line != "/**" && !c.isNamespaceLine(line)
    && !c.isGlobalVarLine(line) && !c.isVarLine(line) && !c.isDefineLine(line) && !c.isConstLine(line)
  }

  /** A `$GLOBALS`, `$var`, `define` or `const` line of the global scope
      declares its variable or constant in the ROOT namespace, whatever
      namespace is current, and clears the first-level flag. Nothing else
      changes. */
  lemma DeclarationToRoot(c: Classifier, rd: Readers, m: Machine, line: string)
    requires RefsValid(m) && NormalLine(line) && m.state == Global
    requires line != "?>" && line != "/**" && !c.isNamespaceLine(line)
    requires c.isGlobalVarLine(line) || c.isVarLine(line) || c.isDefineLine(line) || c.isConstLine(line)
    ensures var r := Step(c, rd, m, line);
            var root := m.tree.namespaces[Root];
            && r.Ok? && r.value == m.(lineNum := m.lineNum + 1, isFirstLevelDocblock := false, tree := r.value.tree)
            && (c.isGlobalVarLine(line) || c.isVarLine(line) ==>
                  var v := if c.isGlobalVarLine(line) then rd.globalVar(line) else rd.variable(line);
                  r.value.tree == m.tree.(namespaces := m.tree.namespaces[Root := root.(globalVars := root.globalVars + [v])]))
            && (!c.isGlobalVarLine(line) && !c.isVarLine(line) ==>
                  var k := if c.isDefineLine(line) then rd.define(line) else rd.constant(line);
                  r.value.tree == m.tree.(namespaces := m.tree.namespaces[Root := root.(globalConsts := root.globalConsts + [k])]))
  {
    StepDispatch(c, rd, m, line);
  }

  /** A function header leads into the function's body with depth 0: the
      new function is the current one and is listed under the current
      namespace. Exactly the header that no earlier recogniser takes and
      whose parameter list ends does this. */
  lemma EnterFunctionBody(c: Classifier, rd: Readers, m: Machine, line: string)
    requires Valid(m) && NormalLine(line) && m.state == Global
    ensures var r := Step(c, rd, m, line);
            r.Ok? && r.value.state == InFunction <==>
              PastDeclarations(c, line) && c.isFunctionLine(line) && rd.functionDecl(line).Some?
    ensures var r := Step(c, rd, m, line);
            r.Ok? && r.value.state == InFunction ==>
              && rd.functionDecl(line).Some? && r.value.bracesDiff == 0 && r.value.sourceBlock == []
              && r.value.curFunction == |m.tree.functions|
              && r.value.tree.functions == m.tree.functions + [NewFunction(rd.functionDecl(line).value)]
              && r.value.tree.namespaces ==
                   m.tree.namespaces[m.curNamespace := m.tree.namespaces[m.curNamespace].(functions :=
                     m.tree.namespaces[m.curNamespace].functions + [|m.tree.functions|])]
  {
    StepDispatch(c, rd, m, line);
  }

  /** A function header whose parameter list is walked forever stops the
      scan at that line. */
  lemma FunctionNeverEnds(c: Classifier, rd: Readers, m: Machine, line: string)
    requires RefsValid(m) && NormalLine(line) && m.state == Global
    ensures var r := Step(c, rd, m, line);
            r.Err? <==>
              && line != "?>" && line != "/**"
              && !c.isNamespaceLine(line) && !c.isGlobalVarLine(line) && !c.isVarLine(line)
              && !c.isDefineLine(line) && !c.isConstLine(line) && c.isFunctionLine(line)
              && rd.functionDecl(line).None?
  {
  }

  /** A class header that no earlier recogniser takes opens the class
      body: the class is listed under the current namespace and becomes
      the current class, and a pending docblock stays pending. */
  lemma EnterClassBody(c: Classifier, rd: Readers, m: Machine, line: string)
    requires RefsValid(m) && NormalLine(line) && m.state == Global
    requires PastDeclarations(c, line) && !c.isFunctionLine(line) && c.isClassLine(line)
    ensures var r := Step(c, rd, m, line);
            var ns := m.tree.namespaces[m.curNamespace];
            && r.Ok? && r.value.state == InClass && r.value.curClass == |m.tree.classes|
            && r.value.tree == m.tree.(classes := m.tree.classes + [NewClass(rd.classDecl(line))],
                                       namespaces := m.tree.namespaces[m.curNamespace := ns.(classes := ns.classes + [|m.tree.classes|])])
            && r.value == m.(lineNum := m.lineNum + 1, isFirstLevelDocblock := false, state := InClass,
                             curClass := r.value.curClass, tree := r.value.tree)
  {
    StepDispatch(c, rd, m, line);
  }

  /** The same for an interface header. */
  lemma EnterInterfaceBody(c: Classifier, rd: Readers, m: Machine, line: string)
    requires RefsValid(m) && NormalLine(line) && m.state == Global
    requires PastDeclarations(c, line) && !c.isFunctionLine(line) && !c.isClassLine(line) && c.isInterfaceLine(line)
    ensures var r := Step(c, rd, m, line);
            var ns := m.tree.namespaces[m.curNamespace];
            && r.Ok? && r.value.state == InInterface && r.value.curInterface == |m.tree.interfaces|
            && r.value.tree == m.tree.(interfaces := m.tree.interfaces + [NewInterface(rd.interfaceDecl(line))],
                                       namespaces := m.tree.namespaces[m.curNamespace := ns.(interfaces := ns.interfaces + [|m.tree.interfaces|])])
            && r.value == m.(lineNum := m.lineNum + 1, isFirstLevelDocblock := false, state := InInterface,
                             curInterface := r.value.curInterface, tree := r.value.tree)
  {
    StepDispatch(c, rd, m, line);
  }

  /** The same for a trait header. */
  lemma EnterTraitBody(c: Classifier, rd: Readers, m: Machine, line: string)
    requires RefsValid(m) && NormalLine(line) && m.state == Global
    requires PastDeclarations(c, line) && !c.isFunctionLine(line) && !c.isClassLine(line) && !c.isInterfaceLine(line)
    requires c.isTraitLine(line)
    ensures var r := Step(c, rd, m, line);
            var ns := m.tree.namespaces[m.curNamespace];
            && r.Ok? && r.value.state == InTrait && r.value.curTrait == |m.tree.traits|
            && r.value.tree == m.tree.(traits := m.tree.traits + [NewTrait(rd.traitDecl(line))],
                                       namespaces := m.tree.namespaces[m.curNamespace := ns.(traits := ns.traits + [|m.tree.traits|])])
            && r.value == m.(lineNum := m.lineNum + 1, isFirstLevelDocblock := false, state := InTrait,
                             curTrait := r.value.curTrait, tree := r.value.tree)
  {
    StepDispatch(c, rd, m, line);
  }

  // ---------------------------------------------------------------------
  // Type bodies (parser.py:182-228).

  /** A line starting with `}` in a class, interface or trait body always
      returns to the global scope and clears the pending-docblock flag; the
      current object of that kind becomes a fresh placeholder, which no
      namespace lists. */
  lemma CloseType(c: Classifier, rd: Readers, m: Machine, line: string)
    requires RefsValid(m) && NormalLine(line) && line[0] == '}'
    requires m.state == InClass || m.state == InInterface || m.state == InTrait
    ensures var r := Step(c, rd, m, line);
            && r.Ok? && r.value.state == Global && !r.value.isPrevDocblock
            && r.value.tree.namespaces == m.tree.namespaces
            && (m.state == InClass ==>
                  r.value.curClass == |m.tree.classes| && r.value.tree.classes == m.tree.classes + [NewClass(BlankClass)])
            && (m.state == InInterface ==>
                  r.value.curInterface == |m.tree.interfaces|
                  && r.value.tree.interfaces == m.tree.interfaces + [NewInterface(BlankInterface)])
            && (m.state == InTrait ==>
                  r.value.curTrait == |m.tree.traits| && r.value.tree.traits == m.tree.traits + [NewTrait(BlankTrait)])
  {
  }

  /** A method header in a class or trait body leads into the method's
      body with depth 0, saving the body's state to return to; the new
      method is the current one and is listed under the current class or
      trait. */
  lemma EnterMethodBody(c: Classifier, rd: Readers, m: Machine, line: string)
    requires Valid(m) && NormalLine(line) && (m.state == InClass || m.state == InTrait)
    ensures var r := Step(c, rd, m, line);
            r.Ok? && r.value.state == InMethod <==>
              && line[0] != '}' && line != "/**" && !c.isPropertyVarLine(line)
              && (m.state == InClass ==> !c.isPropertyConstLine(line))
              && c.isMethodLine(line) && rd.methodDecl(line).Some?
    ensures var r := Step(c, rd, m, line);
            r.Ok? && r.value.state == InMethod ==>
              && rd.methodDecl(line).Some?
              && r.value.prevState == m.state && r.value.bracesDiff == 0 && r.value.sourceBlock == []
              && r.value.curMethod == |m.tree.methods|
              && r.value.tree.methods == m.tree.methods + [NewMethod(rd.methodDecl(line).value)]
              && (m.state == InClass ==>
                    r.value.tree.classes == m.tree.classes[m.curClass := m.tree.classes[m.curClass].(methods :=
                      m.tree.classes[m.curClass].methods + [|m.tree.methods|])])
              && (m.state == InTrait ==>
                    r.value.tree.traits == m.tree.traits[m.curTrait := m.tree.traits[m.curTrait].(methods :=
                      m.tree.traits[m.curTrait].methods + [|m.tree.methods|])])
  {
    StepDispatch(c, rd, m, line);
  }

  /** An interface method has no body: the scan stays in the interface,
      and the current method is left as it was. */
  lemma InterfaceMethodStays(c: Classifier, rd: Readers, m: Machine, line: string)
    requires Valid(m) && NormalLine(line) && m.state == InInterface && line[0] != '}'
    ensures var r := Step(c, rd, m, line);
            r.Ok? ==> r.value.curMethod == m.curMethod && (r.value.state == InInterface || r.value.state == InDocblock)
  {
  }

  /** A property line in a class or trait body is appended to the
      properties of the current class or trait. Nothing else changes. */
  lemma PropertyToType(c: Classifier, rd: Readers, m: Machine, line: string)
    requires RefsValid(m) && NormalLine(line) && (m.state == InClass || m.state == InTrait)
    requires line[0] != '}' && line != "/**" && c.isPropertyVarLine(line)
    ensures var r := Step(c, rd, m, line);
            var p := rd.propertyVar(line);
            && r.Ok? && r.value == m.(lineNum := m.lineNum + 1, tree := r.value.tree)
            && (m.state == InClass ==>
                  var k := m.tree.classes[m.curClass];
                  r.value.tree == m.tree.(classes := m.tree.classes[m.curClass := k.(properties := k.properties + [p])]))
            && (m.state == InTrait ==>
                  var k := m.tree.traits[m.curTrait];
                  r.value.tree == m.tree.(traits := m.tree.traits[m.curTrait := k.(properties := k.properties + [p])]))
  {
    StepDispatch(c, rd, m, line);
  }

  /** A constant line in a class or interface body that
      `parser_property_const` reads is appended to the constants of the
      current class or interface. Nothing else changes. */
  lemma ConstantToType(c: Classifier, rd: Readers, m: Machine, line: string)
    requires RefsValid(m) && NormalLine(line) && (m.state == InClass || m.state == InInterface)
    requires line[0] != '}' && line != "/**" && (m.state == InClass ==> !c.isPropertyVarLine(line))
    requires c.isPropertyConstLine(line) && rd.propertyConst(line).Some?
    ensures var r := Step(c, rd, m, line);
            var x := rd.propertyConst(line).value;
            && r.Ok? && r.value == m.(lineNum := m.lineNum + 1, tree := r.value.tree)
            && (m.state == InClass ==>
                  var k := m.tree.classes[m.curClass];
                  r.value.tree == m.tree.(classes := m.tree.classes[m.curClass := k.(constants := k.constants + [x])]))
            && (m.state == InInterface ==>
                  var k := m.tree.interfaces[m.curInterface];
                  r.value.tree == m.tree.(interfaces := m.tree.interfaces[m.curInterface := k.(constants := k.constants + [x])]))
  {
    StepDispatch(c, rd, m, line);
  }

  /** A method line in an interface body creates the method and appends it
      to the current interface's methods; the depth is reset to 0 and the
      scan stays in the interface. */
  lemma InterfaceMethodListed(c: Classifier, rd: Readers, m: Machine, line: string)
    requires RefsValid(m) && NormalLine(line) && m.state == InInterface
    requires line[0] != '}' && line != "/**" && !c.isPropertyConstLine(line)
    requires c.isMethodLine(line) && rd.methodDecl(line).Some?
    ensures var r := Step(c, rd, m, line);
            var k := m.tree.interfaces[m.curInterface];
            && r.Ok? && r.value == m.(lineNum := m.lineNum + 1, bracesDiff := 0, tree := r.value.tree)
            && r.value.tree == m.tree.(methods := m.tree.methods + [NewMethod(rd.methodDecl(line).value)],
                                       interfaces := m.tree.interfaces[m.curInterface := k.(methods := k.methods + [|m.tree.methods|])])
  {
    StepDispatch(c, rd, m, line);
  }

  /** A type-body line no test takes is skipped. */
  lemma TypeLineSkipped(c: Classifier, rd: Readers, m: Machine, line: string)
    requires RefsValid(m) && NormalLine(line) && (m.state == InClass || m.state == InInterface || m.state == InTrait)
    requires line[0] != '}' && line != "/**" && !c.isMethodLine(line)
    requires m.state != InInterface ==> !c.isPropertyVarLine(line)
    requires m.state != InTrait ==> !c.isPropertyConstLine(line)
    ensures Step(c, rd, m, line) == Ok(m.(lineNum := m.lineNum + 1))
  {
    StepDispatch(c, rd, m, line);
  }

  /** The faults a type body raises: a constant line `parser_property_const`
      rejects (not in a trait) and a method header whose parameter list is
      walked forever. */
  lemma TypeBodyFaults(c: Classifier, rd: Readers, m: Machine, line: string)
    requires RefsValid(m) && NormalLine(line) && (m.state == InClass || m.state == InInterface || m.state == InTrait)
    ensures var r := Step(c, rd, m, line);
            r.Err? ==>
              || (m.state != InTrait && r.error == NotPropertyConst(m.lineNum + 1) && c.isPropertyConstLine(line)
                  && rd.propertyConst(line).None?)
              || (r.error == ParamsNeverEnd(m.lineNum + 1) && c.isMethodLine(line) && rd.methodDecl(line).None?)
  {
  }

  // ---------------------------------------------------------------------
  // Function and method bodies (parser.py:163-181, 229-248).

  /** In a body only the first character moves the depth, by +1 for `{`
      and -1 for `}`; the body ends exactly on the line that brings the
      depth to 0. */
  lemma BodyDepth(c: Classifier, rd: Readers, m: Machine, line: string)
    requires Valid(m) && NormalLine(line) && (m.state == InFunction || m.state == InMethod)
    ensures var r := Step(c, rd, m, line);
            && r.Ok?
            && r.value.bracesDiff == m.bracesDiff + CountChar(line[..1], '{') - CountChar(line[..1], '}')
            && (r.value.state == m.state <==> r.value.bracesDiff != 0)
  {
  }

  /** A line of a function body before the closing one is appended to the
      body; nothing else changes but the depth and, for a `$GLOBALS` line,
      the root namespace's variables. */
  lemma FunctionBodyLine(c: Classifier, rd: Readers, m: Machine, line: string)
    requires RefsValid(m) && NormalLine(line) && m.state == InFunction && m.bracesDiff + Delta(line) != 0
    ensures Step(c, rd, m, line) ==
              Ok(m.(lineNum := m.lineNum + 1, bracesDiff := m.bracesDiff + Delta(line),
                    sourceBlock := m.sourceBlock + [line],
                    tree := if c.isGlobalVarLine(line) then AddGlobalVar(m.tree, Root, rd.globalVar(line)) else m.tree))
  {
  }

  /** The closing line of a function ends the body: it is the last line of
      the stored body, the pending docblock (if one is pending) becomes the
      function's documentation, and the scan is back in the global scope
      with no docblock pending. No other object changes. */
  lemma CloseFunction(c: Classifier, rd: Readers, m: Machine, line: string)
    requires RefsValid(m) && NormalLine(line) && m.state == InFunction && m.bracesDiff + Delta(line) == 0
    ensures var r := Step(c, rd, m, line);
            && r.Ok? && r.value.state == Global && !r.value.isPrevDocblock
            && r.value.sourceBlock == [] && r.value.bracesDiff == 0
            && r.value.tree.namespaces == m.tree.namespaces && r.value.tree.classes == m.tree.classes
            && r.value.tree.methods == m.tree.methods
            && |r.value.tree.functions| == |m.tree.functions|
            && (forall i :: 0 <= i < |m.tree.functions| && i != m.curFunction ==> r.value.tree.functions[i] == m.tree.functions[i])
            && r.value.tree.functions[m.curFunction].decl == m.tree.functions[m.curFunction].decl
            && r.value.tree.functions[m.curFunction].sourceBody == m.sourceBlock + [line]
            && r.value.tree.functions[m.curFunction].docs ==
                 m.tree.functions[m.curFunction].docs + (if m.isPrevDocblock then [m.curDocblock] else [])
  {
  }

  /** A line of a method body before the closing one is appended to the
      body; nothing else changes but the depth. */
  lemma MethodBodyLine(c: Classifier, rd: Readers, m: Machine, line: string)
    requires RefsValid(m) && NormalLine(line) && m.state == InMethod && m.bracesDiff + Delta(line) != 0
    ensures Step(c, rd, m, line) ==
              Ok(m.(lineNum := m.lineNum + 1, bracesDiff := m.bracesDiff + Delta(line), sourceBlock := m.sourceBlock + [line]))
  {
  }

  /** The closing line of a method is the last line of its stored body;
      the scan returns to the class or trait body it was entered from, with
      no docblock pending. */
  lemma CloseMethod(c: Classifier, rd: Readers, m: Machine, line: string)
    requires RefsValid(m) && NormalLine(line) && m.state == InMethod && m.bracesDiff + Delta(line) == 0
    ensures var r := Step(c, rd, m, line);
            && r.Ok? && r.value.state == m.prevState && (Valid(m) ==> r.value.state == InClass || r.value.state == InTrait)
            && !r.value.isPrevDocblock && r.value.sourceBlock == [] && r.value.bracesDiff == 0
            && r.value.tree == m.tree.(methods := m.tree.methods[m.curMethod := m.tree.methods[m.curMethod].(sourceBody := m.sourceBlock + [line])])
  {
  }

  // ---------------------------------------------------------------------
  // Docblocks (parser.py:111-113, 152-162).

  // `/**` in the global scope or a type body opens a docblock and saves
  // the state to return to.
  lemma OpenDocblock(c: Classifier, rd: Readers, m: Machine)
    requires RefsValid(m) && (m.state == Global || m.state == InClass || m.state == InInterface || m.state == InTrait)
    ensures Step(c, rd, m, "/**") == Ok(m.(lineNum := m.lineNum + 1, prevState := m.state, state := InDocblock))
  {
  }

  // Inside a docblock every line but `*/` is collected.
  lemma DocblockLine(c: Classifier, rd: Readers, m: Machine, line: string)
    requires RefsValid(m) && NormalLine(line) && m.state == InDocblock && line != "*/"
    ensures Step(c, rd, m, line) == Ok(m.(lineNum := m.lineNum + 1, docblock := m.docblock + [line]))
  {
  }

  // `*/` parses the collected lines into the pending docblock, empties the
  // collection and returns to the saved state. The docblock pending
  // before it goes to the root namespace exactly when `ToRoot` holds (the
  // first-level flag is set, the docblock was opened in the global scope
  // and one was already pending), and the flag is then cleared; otherwise
  // the tree is unchanged.
  lemma CloseDocblock(c: Classifier, rd: Readers, m: Machine)
    requires RefsValid(m) && m.state == InDocblock
    ensures var r := Step(c, rd, m, "*/");
            && r.Ok? && r.value.state == m.prevState && r.value.docblock == [] && r.value.isPrevDocblock
            && r.value.curDocblock == Parsed(rd.docblock(m.docblock))
            && r.value.isFirstLevelDocblock == (m.isFirstLevelDocblock && !ToRoot(m))
            && (ToRoot(m) ==> r.value.tree == DocumentNamespace(m.tree, Root, m.curDocblock))
            && (!ToRoot(m) ==> r.value.tree == m.tree)
  {
  }

  // ---------------------------------------------------------------------
  // Several lines.

  /** The scan of `a + b` is the scan of `a` followed by the scan of `b`
      from where `a` left it. */
  lemma {:induction false} StepsAppend(c: Classifier, rd: Readers, m: Machine, a: seq<string>, b: seq<string>)
    requires RefsValid(m) && AllNormal(a) && AllNormal(b)
    ensures AllNormal(a + b)
    ensures Steps(c, rd, m, a + b) ==
              match Steps(c, rd, m, a)
              case Ok(m1) => Steps(c, rd, m1, b)
              case Err(e) => Err(e)
    decreases |a|
  {
    assert AllNormal(a + b) by {
      forall k | 0 <= k < |a + b| ensures NormalLine((a + b)[k]) {
        if k < |a| { assert (a + b)[k] == a[k]; } else { assert (a + b)[k] == b[k - |a|]; }
      }
    }
    if a == [] {
      assert a + b == b;
    } else {
      assert (a + b)[0] == a[0] && (a + b)[1..] == a[1..] + b;
      match Step(c, rd, m, a[0])
      case Err(e) =>
      case Ok(m1) =>
        StepsAppend(c, rd, m1, a[1..], b);
    }
  }

  /** A scan that gets past its first line goes on from where that line
      left it, and the invariant holds there. */
  lemma StepsCons(c: Classifier, rd: Readers, m: Machine, lines: seq<string>)
    requires RefsValid(m) && AllNormal(lines) && lines != [] && Step(c, rd, m, lines[0]).Ok?
    ensures Steps(c, rd, m, lines) == Steps(c, rd, Step(c, rd, m, lines[0]).value, lines[1..])
  {
  }

  /** The `$GLOBALS` variables declared by the lines of a body before its
      closing line. */
  function BodyGlobals(c: Classifier, rd: Readers, body: seq<string>): seq<GlobalVar>
    decreases |body|
  {
    if |body| <= 1 then []
    else (if c.isGlobalVarLine(body[0]) then [rd.globalVar(body[0])] else []) + BodyGlobals(c, rd, body[1..])
  }

  /** The tree with `gs` appended to the root namespace's variables. */
  function WithRootGlobals(t: Tree, gs: seq<GlobalVar>): Tree
    requires 0 < |t.namespaces|
  {
    t.(namespaces := t.namespaces[Root := t.namespaces[Root].(globalVars := t.namespaces[Root].globalVars + gs)])
  }

  lemma RootGlobalsNone(t: Tree)
    requires 0 < |t.namespaces|
    ensures WithRootGlobals(t, []) == t
  {
    assert t.namespaces[Root].globalVars + [] == t.namespaces[Root].globalVars;
    assert t.namespaces[Root := t.namespaces[Root]] == t.namespaces;
  }

  lemma RootGlobalsAdd(t: Tree, g: GlobalVar, gs: seq<GlobalVar>)
    requires 0 < |t.namespaces|
    ensures WithRootGlobals(AddGlobalVar(t, Root, g), gs) == WithRootGlobals(t, [g] + gs)
  {
    assert t.namespaces[Root].globalVars + [g] + gs == t.namespaces[Root].globalVars + ([g] + gs);
    var ns := t.namespaces[Root := t.namespaces[Root].(globalVars := t.namespaces[Root].globalVars + [g])];
    assert ns[Root := ns[Root].(globalVars := ns[Root].globalVars + gs)]
        == t.namespaces[Root := t.namespaces[Root].(globalVars := t.namespaces[Root].globalVars + ([g] + gs))];
  }

  /** The tree with function `f`'s body set and `docs` appended to its
      documentation. */
  function ClosedFunction(t: Tree, f: Ref, body: seq<string>, docs: seq<Pending>): Tree
    requires f < |t.functions|
  {
    t.(functions := t.functions[f := t.functions[f].(sourceBody := body, docs := t.functions[f].docs + docs)])
  }

  // The closing line alone: the base case of `WholeFunctionBody`.
  lemma FunctionLastLine(c: Classifier, rd: Readers, m: Machine, line: string)
    requires RefsValid(m) && m.state == InFunction && NormalLine(line) && m.bracesDiff + Delta(line) == 0
    ensures AllNormal([line])
    ensures Steps(c, rd, m, [line]) ==
              Ok(m.(lineNum := m.lineNum + 1, bracesDiff := 0, sourceBlock := [], state := Global, isPrevDocblock := false,
                    tree := ClosedFunction(WithRootGlobals(m.tree, []), m.curFunction, m.sourceBlock + [line],
                                           if m.isPrevDocblock then [m.curDocblock] else [])))
  {
    RootGlobalsNone(m.tree);
    var t := SetFunctionBody(m.tree, m.curFunction, m.sourceBlock + [line]);
    if m.isPrevDocblock {
      assert DocumentFunction(t, m.curFunction, m.curDocblock).functions
          == ClosedFunction(m.tree, m.curFunction, m.sourceBlock + [line], [m.curDocblock]).functions;
    } else {
      assert m.tree.functions[m.curFunction].docs + [] == m.tree.functions[m.curFunction].docs;
    }
  }

  /** The machine after a line of a function body that does not close
      it (`FunctionBodyLine`). */
  function FunctionLineNext(c: Classifier, rd: Readers, m: Machine, line: string): Machine
    requires RefsValid(m) && line != []
  {
    m.(lineNum := m.lineNum + 1, bracesDiff := m.bracesDiff + Delta(line), sourceBlock := m.sourceBlock + [line],
       tree := if c.isGlobalVarLine(line) then AddGlobalVar(m.tree, Root, rd.globalVar(line)) else m.tree)
  }

  /** The machine after the whole of `body`, as `WholeFunctionBody` states
      it. */
  function AfterFunction(c: Classifier, rd: Readers, m: Machine, body: seq<string>): Machine
    requires RefsValid(m)
  {
    m.(lineNum := m.lineNum + |body|, bracesDiff := 0, sourceBlock := [], state := Global, isPrevDocblock := false,
       tree := ClosedFunction(WithRootGlobals(m.tree, BodyGlobals(c, rd, body)), m.curFunction, m.sourceBlock + body,
                              if m.isPrevDocblock then [m.curDocblock] else []))
  }

  lemma FunctionBodyStep(c: Classifier, rd: Readers, m: Machine, body: seq<string>)
    requires RefsValid(m) && m.state == InFunction && AllNormal(body) && |body| > 1 && m.bracesDiff + Delta(body[0]) != 0
    ensures RefsValid(FunctionLineNext(c, rd, m, body[0])) && AllNormal(body[1..])
    ensures Steps(c, rd, m, body) == Steps(c, rd, FunctionLineNext(c, rd, m, body[0]), body[1..])
  {
    FunctionBodyLine(c, rd, m, body[0]);
    StepsCons(c, rd, m, body);
  }

  lemma AfterFunctionShift(c: Classifier, rd: Readers, m: Machine, body: seq<string>)
    requires RefsValid(m) && |body| > 1 && body[0] != []
    ensures AfterFunction(c, rd, FunctionLineNext(c, rd, m, body[0]), body[1..]) == AfterFunction(c, rd, m, body)
  {
    var line := body[0];
    var m1 := FunctionLineNext(c, rd, m, line);
    assert m1.sourceBlock + body[1..] == m.sourceBlock + body;
    var rest := BodyGlobals(c, rd, body[1..]);
    if c.isGlobalVarLine(line) {
      assert BodyGlobals(c, rd, body) == [rd.globalVar(line)] + rest;
      RootGlobalsAdd(m.tree, rd.globalVar(line), rest);
    } else {
      assert BodyGlobals(c, rd, body) == [] + rest == rest;
    }
  }

  /** A whole function body: the scan returns to the global scope with no
      docblock pending, the function's stored body is every line of it
      (after the lines already collected), the pending docblock, if any,
      is its documentation, and its `$GLOBALS` lines are declared in the
      root namespace, in order. Nothing else changes. */
  lemma {:induction false} WholeFunctionBody(c: Classifier, rd: Readers, m: Machine, body: seq<string>)
    requires RefsValid(m) && m.state == InFunction && AllNormal(body) && ClosesOn(m.bracesDiff, body)
    ensures Steps(c, rd, m, body) == Ok(AfterFunction(c, rd, m, body))
    decreases |body|
  {
    if |body| == 1 {
      assert body == [body[0]];
      FunctionLastLine(c, rd, m, body[0]);
    } else {
      FunctionBodyStep(c, rd, m, body);
      WholeFunctionBody(c, rd, FunctionLineNext(c, rd, m, body[0]), body[1..]);
      AfterFunctionShift(c, rd, m, body);
    }
  }

  /** The machine after a line of a method body that does not close it
      (`MethodBodyLine`). */
  function MethodLineNext(m: Machine, line: string): Machine
    requires line != []
  {
    m.(lineNum := m.lineNum + 1, bracesDiff := m.bracesDiff + Delta(line), sourceBlock := m.sourceBlock + [line])
  }

  /** The machine after the whole of `body`, as `WholeMethodBody` states
      it: back in the class or trait body with no docblock pending, and
      the method's stored body is every line collected. */
  function AfterMethod(m: Machine, body: seq<string>): Machine
    requires RefsValid(m)
  {
    m.(lineNum := m.lineNum + |body|, bracesDiff := 0, sourceBlock := [], state := m.prevState, isPrevDocblock := false,
       tree := SetMethodBody(m.tree, m.curMethod, m.sourceBlock + body))
  }

  lemma MethodBodyStep(c: Classifier, rd: Readers, m: Machine, body: seq<string>)
    requires RefsValid(m) && m.state == InMethod && AllNormal(body) && |body| > 1 && m.bracesDiff + Delta(body[0]) != 0
    ensures RefsValid(MethodLineNext(m, body[0])) && AllNormal(body[1..])
    ensures Steps(c, rd, m, body) == Steps(c, rd, MethodLineNext(m, body[0]), body[1..])
  {
    MethodBodyLine(c, rd, m, body[0]);
    StepsCons(c, rd, m, body);
  }

  // The closing line alone: the base case of `WholeMethodBody`.
  lemma MethodLastLine(c: Classifier, rd: Readers, m: Machine, line: string)
    requires RefsValid(m) && m.state == InMethod && NormalLine(line) && m.bracesDiff + Delta(line) == 0
    ensures AllNormal([line])
    ensures Steps(c, rd, m, [line]) == Ok(AfterMethod(m, [line]))
  {
    CloseMethod(c, rd, m, line);
  }

  lemma AfterMethodShift(m: Machine, body: seq<string>)
    requires RefsValid(m) && |body| > 1 && body[0] != []
    ensures AfterMethod(MethodLineNext(m, body[0]), body[1..]) == AfterMethod(m, body)
  {
    assert MethodLineNext(m, body[0]).sourceBlock + body[1..] == m.sourceBlock + body;
  }

  /** A whole method body: the scan returns to the class or trait body it
      came from with no docblock pending, and the only change to the tree
      is the method's stored body, which is every line of it. */
  lemma {:induction false} WholeMethodBody(c: Classifier, rd: Readers, m: Machine, body: seq<string>)
    requires RefsValid(m) && m.state == InMethod && AllNormal(body) && ClosesOn(m.bracesDiff, body)
    ensures Steps(c, rd, m, body) == Ok(AfterMethod(m, body))
    decreases |body|
  {
    if |body| == 1 {
      assert body == [body[0]];
      MethodLastLine(c, rd, m, body[0]);
    } else {
      MethodBodyStep(c, rd, m, body);
      WholeMethodBody(c, rd, MethodLineNext(m, body[0]), body[1..]);
      AfterMethodShift(m, body);
    }
  }

  // The machine after a docblock's `body` and its closing `*/`, as
  // `WholeDocblock` states it: the pending docblock is what the reader
  // makes of every line collected, the scan is back in the state the
  // docblock was opened from, and the docblock pending before goes to
  // the root namespace exactly when `ToRoot` holds.
  function AfterDocblock(rd: Readers, m: Machine, body: seq<string>): Machine
    requires RefsValid(m)
  {
    m.(lineNum := m.lineNum + |body| + 1, state := m.prevState, docblock := [], isPrevDocblock := true,
       curDocblock := Parsed(rd.docblock(m.docblock + body)),
       isFirstLevelDocblock := m.isFirstLevelDocblock && !ToRoot(m),
       tree := if ToRoot(m) then DocumentNamespace(m.tree, Root, m.curDocblock) else m.tree)
  }

  lemma DocblockStep(c: Classifier, rd: Readers, m: Machine, body: seq<string>)
    requires RefsValid(m) && m.state == InDocblock && AllNormal(body) && body != [] && "*/" !in body
    ensures AllNormal(body + ["*/"]) && AllNormal(body[1..])
    ensures Steps(c, rd, m, body + ["*/"]) == Steps(c, rd, m.(lineNum := m.lineNum + 1, docblock := m.docblock + [body[0]]), body[1..] + ["*/"])
  {
    DocblockLine(c, rd, m, body[0]);
    AllNormalEnd(body);
    assert (body + ["*/"])[0] == body[0] && (body + ["*/"])[1..] == body[1..] + ["*/"];
    StepsCons(c, rd, m, body + ["*/"]);
  }

  lemma AllNormalEnd(body: seq<string>)
    requires AllNormal(body)
    ensures AllNormal(body + ["*/"])
  {
    assert NormalLine("*/");
    forall k | 0 <= k < |body + ["*/"]| ensures NormalLine((body + ["*/"])[k]) {
      if k < |body| { assert (body + ["*/"])[k] == body[k]; }
    }
  }

  // The closing line alone: the base case of `WholeDocblock`.
  lemma DocblockEnd(c: Classifier, rd: Readers, m: Machine)
    requires RefsValid(m) && m.state == InDocblock
    ensures AllNormal(["*/"])
    ensures Steps(c, rd, m, ["*/"]) == Ok(AfterDocblock(rd, m, []))
  {
    AllNormalEnd([]);
    CloseDocblock(c, rd, m);
    assert m.docblock + [] == m.docblock;
  }

  lemma AfterDocblockShift(rd: Readers, m: Machine, body: seq<string>)
    requires RefsValid(m) && body != []
    ensures AfterDocblock(rd, m.(lineNum := m.lineNum + 1, docblock := m.docblock + [body[0]]), body[1..]) == AfterDocblock(rd, m, body)
  {
    assert m.docblock + [body[0]] + body[1..] == m.docblock + body;
  }

  /** A whole docblock, up to and including its closing line. */
  lemma {:induction false} WholeDocblock(c: Classifier, rd: Readers, m: Machine, body: seq<string>)
    requires RefsValid(m) && m.state == InDocblock && AllNormal(body) && "*/" !in body
    ensures AllNormal(body + ["*/"])
    ensures Steps(c, rd, m, body + ["*/"]) == Ok(AfterDocblock(rd, m, body))
    decreases |body|
  {
    if body == [] {
      DocblockEnd(c, rd, m);
    } else {
      DocblockStep(c, rd, m, body);
      WholeDocblock(c, rd, m.(lineNum := m.lineNum + 1, docblock := m.docblock + [body[0]]), body[1..]);
      AfterDocblockShift(rd, m, body);
    }
  }

  /** However the file goes, the root namespace is documented at most
      once. */
  lemma RootDocumentedAtMostOnce(c: Classifier, rd: Readers, lines: seq<string>)
    requires AllNormal(lines)
    ensures var r := Run(c, rd, lines);
            r.Ok? ==> |r.value.tree.namespaces[Root].docs| <= 1
  {
    RunKeeps(c, rd, lines);
  }
}
