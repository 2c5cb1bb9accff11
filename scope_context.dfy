/**
 * The scope context the analyzer walks with: a stack of scope layers, each with
 * its kind, its symbol-table layer and (for a switch) the switch's own state;
 * the stack of enclosing functions; the two ambient flags; and the diagnostic
 * sink. Only the interface the nodes use is modelled; its implementation is
 * not.
 */
module ScopeCtx {
  import opened Wrappers
  import opened Consts
  import opened Ast

  /** A function parameter as FunctionNode copies it into Func::paramList. */
  datatype Var = Var(dtype: DataType, name: string, isConst: bool)

  /** A declared name: a variable (the declaration) or a function (FunctionNode::func). */
  datatype Symbol =
    | VarSym(dtype: DataType, isConst: bool)
    | FuncSym(dtype: DataType, params: seq<Var>, alias: string, used: bool)

  /** The per-switch state kept on the SwitchNode and reached through getSwitchScope(). */
  datatype SwitchState = SwitchState(hasDefaultLabel: bool, caseLabelCnt: nat, initializedVars: seq<VarDecl>)

  const NoSwitchState := SwitchState(false, 0, [])

  /** One scope layer. */
  datatype Layer = Layer(kind: ScopeType, symbols: map<string, Symbol>, switchState: SwitchState)

  /** What addScope pushes: an empty symbol layer with a fresh switch state. */
  function NewLayer(kind: ScopeType): Layer
  {
    Layer(kind, map[], NoSwitchState)
  }

  /** The construct named in a "... is not allowed in global scope" diagnostic. */
  datatype Construct = IfConstruct | SwitchConstruct | WhileConstruct | DoWhileConstruct | ForConstruct | BlockConstruct | ExpressionConstruct

  /** One reported diagnostic, by kind; the message text is not modelled. */
  datatype ErrorKind =
    | NotAllowedInGlobal(construct: Construct)
    | FunctionDefinitionNotAllowed
    | FunctionRedeclared(fname: string)
    | CaseNotWithinSwitch
    | ConstantExpressionRequired
    | CaseQuantityNotInteger
    | MultipleDefaultLabels
    | SwitchQuantityNotInteger
    | BreakNotWithinLoopOrSwitch
    | ContinueNotWithinLoop
    | DeclaredVoid(vname: string)
    | VariableRedeclared(vname: string)
    | DefaultParameter
    | UninitializedConst(vname: string)
    | SyntaxError
    | NotDeclared(name: string)
    | NotAFunction(name: string)
    | TooManyArguments(name: string)
    | TooFewArguments(name: string)
    | InvalidConversion
    | AssignmentOfFunction(name: string)
    | AssignmentOfReadOnly(name: string)
    | LvalueRequired
    | VoidOperand

  /** The layers from i (exclusive) to the innermost one hold no FUNCTION layer. */
  ghost predicate NoFunctionAbove(layers: seq<Layer>, i: nat)
  {
    forall j :: i < j < |layers| ==> layers[j].kind != FunctionScope
  }

  /** hasLoopScope: walking outward, a LOOP layer is met before any FUNCTION layer. */
  function HasLoopIn(layers: seq<Layer>): (b: bool)
    ensures b <==> exists i :: 0 <= i < |layers| && layers[i].kind == LoopScope && NoFunctionAbove(layers, i)
  {
    if |layers| == 0 then false
    else
      var top := layers[|layers| - 1];
      if top.kind == LoopScope then true
      else if top.kind == FunctionScope then false
      else
        var r := HasLoopIn(layers[..|layers| - 1]);
        assert forall i :: 0 <= i < |layers| - 1 ==> layers[..|layers| - 1][i] == layers[i];
        r
  }

  /** hasBreakScope: walking outward, a LOOP or SWITCH layer is met before any FUNCTION layer. */
  function HasBreakIn(layers: seq<Layer>): (b: bool)
    ensures b <==> exists i :: 0 <= i < |layers| && layers[i].kind in {LoopScope, SwitchScope} && NoFunctionAbove(layers, i)
  {
    if |layers| == 0 then false
    else
      var top := layers[|layers| - 1];
      if top.kind == LoopScope || top.kind == SwitchScope then true
      else if top.kind == FunctionScope then false
      else
        var r := HasBreakIn(layers[..|layers| - 1]);
        assert forall i :: 0 <= i < |layers| - 1 ==> layers[..|layers| - 1][i] == layers[i];
        r
  }

  /** getSwitchScope: the index of the nearest SWITCH layer met before any FUNCTION layer. */
  function SwitchIn(layers: seq<Layer>): (r: Option<nat>)
    ensures r.Some? ==> r.value < |layers| && layers[r.value].kind == SwitchScope && NoFunctionAbove(layers, r.value)
                        && forall j :: r.value < j < |layers| ==> layers[j].kind != SwitchScope
    ensures r.None? ==> forall i :: 0 <= i < |layers| && layers[i].kind == SwitchScope ==> !NoFunctionAbove(layers, i)
  {
    if |layers| == 0 then None
    else
      var top := layers[|layers| - 1];
      if top.kind == SwitchScope then Some(|layers| - 1)
      else if top.kind == FunctionScope then None
      else
        var r := SwitchIn(layers[..|layers| - 1]);
        assert forall i :: 0 <= i < |layers| - 1 ==> layers[..|layers| - 1][i] == layers[i];
        r
  }

  /** The index of the innermost layer that declares `name`. */
  function LookupIndex(layers: seq<Layer>, name: string): (r: Option<nat>)
    ensures r.Some? ==> r.value < |layers| && name in layers[r.value].symbols
                        && forall j :: r.value < j < |layers| ==> name !in layers[j].symbols
    ensures r.None? ==> forall i :: 0 <= i < |layers| ==> name !in layers[i].symbols
  {
    if |layers| == 0 then None
    else if name in layers[|layers| - 1].symbols then Some(|layers| - 1)
    else
      var r := LookupIndex(layers[..|layers| - 1], name);
      assert forall i :: 0 <= i < |layers| - 1 ==> layers[..|layers| - 1][i] == layers[i];
      r
  }

  /** getSymbol: the innermost declaration of `name`, searching every layer. */
  function Lookup(layers: seq<Layer>, name: string): Option<Symbol>
  {
    match LookupIndex(layers, name)
    case None => None
    case Some(i) => Some(layers[i].symbols[name])
  }

  /** The kinds of the layers, outermost first. */
  function Kinds(layers: seq<Layer>): seq<ScopeType>
  {
    seq(|layers|, i requires 0 <= i < |layers| => layers[i].kind)
  }

  /** Drops the top of a stack; the empty stack stays empty. */
  function DropTop<T>(s: seq<T>): seq<T>
  {
    if |s| == 0 then s else s[..|s| - 1]
  }

  /** The value state of a scope context. */
  datatype ScopeState = ScopeState(
    layers: seq<Layer>,
    functions: seq<Symbol>,
    declareFuncParams: bool,
    initializeVar: bool,
    errors: seq<ErrorKind>)
  {
    predicate IsGlobalScope() { |layers| == 1 }
    predicate HasLoopScope() { HasLoopIn(layers) }
    predicate HasBreakScope() { HasBreakIn(layers) }
    function GetSwitchScope(): Option<nat> { SwitchIn(layers) }
    function GetSymbol(name: string): Option<Symbol> { Lookup(layers, name) }

    function AddScope(kind: ScopeType): ScopeState
    {
      this.(layers := layers + [NewLayer(kind)])
    }

    function PopScope(): ScopeState
    {
      this.(layers := DropTop(layers))
    }

    /** printError / log: appends one diagnostic. */
    function Report(e: ErrorKind): ScopeState
    {
      this.(errors := errors + [e])
    }

    /** declareSymbol: inserts into the innermost layer; fails, changing nothing, if the name is already there. */
    function DeclareSymbol(name: string, sym: Symbol): (r: (bool, ScopeState))
      ensures r.0 <==> |layers| > 0 && name !in layers[|layers| - 1].symbols
      ensures !r.0 ==> r.1 == this
      ensures r.0 ==> r.1 == this.(layers := layers[|layers| - 1 := layers[|layers| - 1].(symbols := layers[|layers| - 1].symbols[name := sym])])
    {
      if |layers| == 0 || name in layers[|layers| - 1].symbols then (false, this)
      else
        var top := layers[|layers| - 1];
        (true, this.(layers := layers[|layers| - 1 := top.(symbols := top.symbols[name := sym])]))
    }

    /** Replaces the state of the switch whose layer is at index k. */
    function SetSwitchState(k: nat, sw: SwitchState): ScopeState
    {
      if k < |layers| then this.(layers := layers[k := layers[k].(switchState := sw)]) else this
    }

    /** func->used = true on the innermost declaration of `name`, when it is a function. */
    function MarkUsed(name: string): ScopeState
    {
      match LookupIndex(layers, name)
      case None => this
      case Some(i) =>
        var sym := layers[i].symbols[name];
        if sym.FuncSym? then this.(layers := layers[i := layers[i].(symbols := layers[i].symbols[name := sym.(used := true)])])
        else this
    }
  }

  /** A fresh context: the global layer only. */
  const InitialState := ScopeState([NewLayer(BlockScope)], [], false, false, [])

  /** Shadowing is legal: a name declared in an enclosing layer can be declared again in a new inner layer, but not twice in one layer. */
  lemma ShadowingAllowed(st: ScopeState, name: string, s1: Symbol, s2: Symbol, kind: ScopeType)
    requires st.DeclareSymbol(name, s1).0
    ensures st.DeclareSymbol(name, s1).1.AddScope(kind).DeclareSymbol(name, s2).0
    ensures !st.DeclareSymbol(name, s1).1.DeclareSymbol(name, s2).0
    ensures st.DeclareSymbol(name, s1).1.AddScope(kind).DeclareSymbol(name, s2).1.GetSymbol(name) == Some(s2)
  {
  }

  /** A SWITCH layer satisfies break but not continue; a FUNCTION layer hides every enclosing loop and switch. */
  lemma BreakContinueWalk(st: ScopeState)
    ensures st.AddScope(SwitchScope).HasBreakScope()
    ensures st.AddScope(SwitchScope).HasLoopScope() == st.HasLoopScope()
    ensures st.AddScope(LoopScope).HasLoopScope() && st.AddScope(LoopScope).HasBreakScope()
    ensures !st.AddScope(FunctionScope).HasLoopScope() && !st.AddScope(FunctionScope).HasBreakScope()
    ensures st.AddScope(FunctionScope).GetSwitchScope().None?
  {
    var l := st.AddScope(SwitchScope).layers;
    assert l[..|l| - 1] == st.layers;
  }

  /**
   * The scope context object. Its fields are the state above; the analyzer
   * sets the flags and the functions stack directly, as the nodes do.
   */
  class ScopeContext {
    var layers: seq<Layer>
    var functions: seq<Symbol>
    var declareFuncParams: bool
    var initializeVar: bool
    var errors: seq<ErrorKind>

    function Snapshot(): ScopeState
      reads this
    {
      ScopeState(layers, functions, declareFuncParams, initializeVar, errors)
    }

    constructor ()
      ensures Snapshot() == InitialState
    {
      layers := [NewLayer(BlockScope)];
      functions := [];
      declareFuncParams := false;
      initializeVar := false;
      errors := [];
    }

    function IsGlobalScope(): bool
      reads this
    {
      Snapshot().IsGlobalScope()
    }

    function HasLoopScope(): bool
      reads this
    {
      Snapshot().HasLoopScope()
    }

    function HasBreakScope(): bool
      reads this
    {
      Snapshot().HasBreakScope()
    }

    function GetSwitchScope(): Option<nat>
      reads this
    {
      Snapshot().GetSwitchScope()
    }

    function GetSymbol(name: string): Option<Symbol>
      reads this
    {
      Snapshot().GetSymbol(name)
    }

    method AddScope(kind: ScopeType)
      modifies this
      ensures Snapshot() == old(Snapshot()).AddScope(kind)
    {
      layers := layers + [NewLayer(kind)];
    }

    method PopScope()
      modifies this
      ensures Snapshot() == old(Snapshot()).PopScope()
    {
      layers := DropTop(layers);
    }

    method PrintError(e: ErrorKind)
      modifies this
      ensures Snapshot() == old(Snapshot()).Report(e)
    {
      errors := errors + [e];
    }

    method DeclareSymbol(name: string, sym: Symbol) returns (ok: bool)
      modifies this
      ensures (ok, Snapshot()) == old(Snapshot()).DeclareSymbol(name, sym)
    {
      if |layers| == 0 || name in layers[|layers| - 1].symbols {
        ok := false;
      } else {
        var top := layers[|layers| - 1];
        layers := layers[|layers| - 1 := top.(symbols := top.symbols[name := sym])];
        ok := true;
      }
    }

    /** Writes through the reference that getSwitchScope returned. */
    method SetSwitchState(k: nat, sw: SwitchState)
      modifies this
      ensures Snapshot() == old(Snapshot()).SetSwitchState(k, sw)
    {
      if k < |layers| {
        layers := layers[k := layers[k].(switchState := sw)];
      }
    }

    method MarkUsed(name: string)
      modifies this
      ensures Snapshot() == old(Snapshot()).MarkUsed(name)
    {
      var idx := LookupIndex(layers, name);
      if idx.Some? {
        var i := idx.value;
        var sym := layers[i].symbols[name];
        if sym.FuncSym? {
          layers := layers[i := layers[i].(symbols := layers[i].symbols[name := sym.(used := true)])];
        }
      }
    }
  }
}
