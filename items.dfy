/** The declaration tree that `Parser.parse` builds (parser.py:43-61 and the
    `add_*` calls of parser.py:98-248). The `items` module that defines these
    objects is not part of this model: only the constructors and `add_*`
    operations the parser calls are modelled, each as appending to a list.

    Python objects are shared by reference: `cur_function` is the very object
    that was added to `cur_namespace`, and later `set_source_body` calls
    reach it through either name. The model keeps every object of a kind in
    one list of a `Tree` and refers to it by its position there, so that
    sharing is preserved. */
module Items {
  import opened Wrappers
  import opened Docs

  datatype Access = Public | Protected | Private

  /** `Global_var(name, type_)` */
  datatype GlobalVar = GlobalVar(name: string, varType: string)

  /** `Global_const(name, value)` */
  datatype GlobalConst = GlobalConst(name: string, value: string)

  /** `Property(name, access)` */
  datatype Property = Property(name: string, access: Access)

  /** `Const(name, access, value)` */
  datatype Const = Const(name: string, access: Access, value: string)

  /** `Function(name, return_type)` with its `set_parameters` list. */
  datatype FunctionDecl = FunctionDecl(name: string, returnType: string, parameters: seq<GlobalVar>)

  /** `Method(name, access, return_type)` with its `set_parameters` list. */
  datatype MethodDecl = MethodDecl(name: string, access: Access, returnType: string, parameters: seq<string>)

  /** `Class(name, extends_name, implements_name)` */
  datatype ClassDecl = ClassDecl(name: string, extendsName: string, implementsName: string)

  /** `Interface(name, parents)` */
  datatype InterfaceDecl = InterfaceDecl(name: string, parents: seq<string>)

  /** `Trait(name)` */
  datatype TraitDecl = TraitDecl(name: string)

  /** A position in the list of its kind. */
  type Ref = nat

  /** `Namespace(name)`: its children are positions in the tree's lists;
      `docs` records, in order, every value handed to `process_docblock`. */
  datatype Namespace = Namespace(name: string, namespaces: seq<Ref>, functions: seq<Ref>, classes: seq<Ref>,
                                 interfaces: seq<Ref>, traits: seq<Ref>, globalVars: seq<GlobalVar>,
                                 globalConsts: seq<GlobalConst>, docs: seq<Pending>)

  /** `Function(f)` with its source body and its documentation. */
  datatype Function = Function(decl: FunctionDecl, sourceBody: seq<string>, docs: seq<Pending>)

  datatype Class = Class(decl: ClassDecl, properties: seq<Option<Property>>, constants: seq<Const>, methods: seq<Ref>)

  datatype Interface = Interface(decl: InterfaceDecl, constants: seq<Const>, methods: seq<Ref>)

  datatype Trait = Trait(decl: TraitDecl, properties: seq<Option<Property>>, methods: seq<Ref>)

  datatype Method = Method(decl: MethodDecl, sourceBody: seq<string>)

  /** Every object created so far, one list per kind. */
  datatype Tree = Tree(namespaces: seq<Namespace>, functions: seq<Function>, classes: seq<Class>,
                       interfaces: seq<Interface>, traits: seq<Trait>, methods: seq<Method>)

  /** New objects, with no children, body or documentation. */
  function NewNamespace(name: string): Namespace {
    Namespace(name, [], [], [], [], [], [], [], [])
  }

  function NewFunction(f: FunctionDecl): Function {
    Function(f, [], [])
  }

  function NewClass(c: ClassDecl): Class {
    Class(c, [], [], [])
  }

  function NewInterface(i: InterfaceDecl): Interface {
    Interface(i, [], [])
  }

  function NewTrait(t: TraitDecl): Trait {
    Trait(t, [], [])
  }

  function NewMethod(m: MethodDecl): Method {
    Method(m, [])
  }

  /** The placeholders `Function('')`, `Class('')`, `Interface('')`,
      `Trait('')` and `Method('', AccessModifier.public)`. */
  const BlankFunction := FunctionDecl("", "", [])
  const BlankClass := ClassDecl("", "", "")
  const BlankInterface := InterfaceDecl("", [])
  const BlankTrait := TraitDecl("")
  const BlankMethod := MethodDecl("", Public, "", [])

  // ---------------------------------------------------------------------
  // The `add_*`, `set_source_body` and `process_docblock` calls: each
  // appends to, or sets, one list of one object.

  function AddNamespace(t: Tree, ns: Ref, child: Ref): Tree
    requires ns < |t.namespaces|
  {
    t.(namespaces := t.namespaces[ns := t.namespaces[ns].(namespaces := t.namespaces[ns].namespaces + [child])])
  }

  function AddFunction(t: Tree, ns: Ref, child: Ref): Tree
    requires ns < |t.namespaces|
  {
    t.(namespaces := t.namespaces[ns := t.namespaces[ns].(functions := t.namespaces[ns].functions + [child])])
  }

  function AddClass(t: Tree, ns: Ref, child: Ref): Tree
    requires ns < |t.namespaces|
  {
    t.(namespaces := t.namespaces[ns := t.namespaces[ns].(classes := t.namespaces[ns].classes + [child])])
  }

  function AddInterface(t: Tree, ns: Ref, child: Ref): Tree
    requires ns < |t.namespaces|
  {
    t.(namespaces := t.namespaces[ns := t.namespaces[ns].(interfaces := t.namespaces[ns].interfaces + [child])])
  }

  function AddTrait(t: Tree, ns: Ref, child: Ref): Tree
    requires ns < |t.namespaces|
  {
    t.(namespaces := t.namespaces[ns := t.namespaces[ns].(traits := t.namespaces[ns].traits + [child])])
  }

  /** `ns.add_global_var(v)` */
  function AddGlobalVar(t: Tree, ns: Ref, v: GlobalVar): Tree
    requires ns < |t.namespaces|
  {
    t.(namespaces := t.namespaces[ns := t.namespaces[ns].(globalVars := t.namespaces[ns].globalVars + [v])])
  }

  /** `ns.add_constants(c)` */
  function AddGlobalConst(t: Tree, ns: Ref, c: GlobalConst): Tree
    requires ns < |t.namespaces|
  {
    t.(namespaces := t.namespaces[ns := t.namespaces[ns].(globalConsts := t.namespaces[ns].globalConsts + [c])])
  }

  /** `ns.process_docblock(d)` */
  function DocumentNamespace(t: Tree, ns: Ref, d: Pending): Tree
    requires ns < |t.namespaces|
  {
    t.(namespaces := t.namespaces[ns := t.namespaces[ns].(docs := t.namespaces[ns].docs + [d])])
  }

  /** `f.process_docblock(d)` */
  function DocumentFunction(t: Tree, f: Ref, d: Pending): Tree
    requires f < |t.functions|
  {
    t.(functions := t.functions[f := t.functions[f].(docs := t.functions[f].docs + [d])])
  }

  /** `f.set_source_body(body)` */
  function SetFunctionBody(t: Tree, f: Ref, body: seq<string>): Tree
    requires f < |t.functions|
  {
    t.(functions := t.functions[f := t.functions[f].(sourceBody := body)])
  }

  /** `m.set_source_body(body)` */
  function SetMethodBody(t: Tree, m: Ref, body: seq<string>): Tree
    requires m < |t.methods|
  {
    t.(methods := t.methods[m := t.methods[m].(sourceBody := body)])
  }

  /** `add_property`, `add_constant` and `add_method` on a class. */
  function AddClassProperty(t: Tree, c: Ref, p: Option<Property>): Tree
    requires c < |t.classes|
  {
    t.(classes := t.classes[c := t.classes[c].(properties := t.classes[c].properties + [p])])
  }

  function AddClassConstant(t: Tree, c: Ref, k: Const): Tree
    requires c < |t.classes|
  {
    t.(classes := t.classes[c := t.classes[c].(constants := t.classes[c].constants + [k])])
  }

  function AddClassMethod(t: Tree, c: Ref, m: Ref): Tree
    requires c < |t.classes|
  {
    t.(classes := t.classes[c := t.classes[c].(methods := t.classes[c].methods + [m])])
  }

  /** `add_constant` and `add_method` on an interface. */
  function AddInterfaceConstant(t: Tree, i: Ref, k: Const): Tree
    requires i < |t.interfaces|
  {
    t.(interfaces := t.interfaces[i := t.interfaces[i].(constants := t.interfaces[i].constants + [k])])
  }

  function AddInterfaceMethod(t: Tree, i: Ref, m: Ref): Tree
    requires i < |t.interfaces|
  {
    t.(interfaces := t.interfaces[i := t.interfaces[i].(methods := t.interfaces[i].methods + [m])])
  }

  /** `add_property` and `add_method` on a trait. */
  function AddTraitProperty(t: Tree, tr: Ref, p: Option<Property>): Tree
    requires tr < |t.traits|
  {
    t.(traits := t.traits[tr := t.traits[tr].(properties := t.traits[tr].properties + [p])])
  }

  function AddTraitMethod(t: Tree, tr: Ref, m: Ref): Tree
    requires tr < |t.traits|
  {
    t.(traits := t.traits[tr := t.traits[tr].(methods := t.traits[tr].methods + [m])])
  }
}
