/** The C++ backend's visitor state: a chain of symbol tables recording each name's
    type, a counter for fresh variable names, and the sections of the program text. */
module AstVisitor {

  import opened Utils
  import CodeGenerator

  /** One scope: the names defined in it with their types, and the enclosing scope. */
  class SymbolTable {
    var symbols: map<string, string>
    const parent: SymbolTable?
    ghost const depth: nat

    /** The chain of enclosing scopes is finite: each parent sits strictly lower. */
    ghost predicate Linked()
      decreases depth
    {
      parent != null ==> parent.depth < depth && parent.Linked()
    }

    /** This scope and all that enclose it. */
    ghost function Chain(): (r: set<SymbolTable>)
      requires Linked()
      ensures this in r
      decreases depth
    {
      {this} + if parent == null then {} else parent.Chain()
    }

    constructor(parent: SymbolTable?)
      requires parent != null ==> parent.Linked()
      ensures this.parent == parent && symbols == map[] && Linked()
      ensures parent != null ==> depth == parent.depth + 1
    {
      this.parent := parent;
      depth := if parent == null then 0 else parent.depth + 1;
      symbols := map[];
    }

    /** define writes (or overwrites) the name in this scope only. */
    method Define(name: string, type_: string)
      modifies this
      ensures symbols == old(symbols)[name := type_]
      ensures Linked() ==> IsDefined(name) && GetType(name) == type_
    {
      symbols := symbols[name := type_];
    }

    /** isDefined: here or in any enclosing scope. */
    predicate IsDefined(name: string): (b: bool)
      requires Linked()
      reads Chain()
      ensures name in symbols ==> b
      ensures b && name !in symbols ==> parent != null
      decreases depth
    {
      name in symbols || (parent != null && parent.IsDefined(name))
    }

    /** getType: the nearest definition's type, "unknown" when there is none. */
    function GetType(name: string): (r: string)
      requires Linked()
      reads Chain()
      ensures name in symbols ==> r == symbols[name]
      decreases depth
    {
      if name in symbols then symbols[name]
      else if parent != null then parent.GetType(name)
      else "unknown"
    }

    /** A name is defined iff some scope on the chain defines it. */
    lemma {:induction false} DefinedSomewhereOnChain(name: string)
      requires Linked()
      ensures IsDefined(name) <==> exists t :: t in Chain() && name in t.symbols
      decreases depth
    {
      if name !in symbols && parent != null {
        parent.DefinedSomewhereOnChain(name);
      }
    }

    /** getType gives the type the nearest scope defining the name records (no scope
        between this one and it defines the name), and "unknown" when none does. */
    lemma {:induction false} TypeOfDefinedName(name: string)
      requires Linked()
      ensures !IsDefined(name) ==> GetType(name) == "unknown"
      ensures IsDefined(name) ==>
        exists t :: t in Chain() && name in t.symbols && GetType(name) == t.symbols[name]
          && forall u :: u in Chain() && u.depth > t.depth ==> name !in u.symbols
      decreases depth
    {
      if name in symbols {
        ChainDepths();
        assert this in Chain();
      } else if parent != null {
        parent.TypeOfDefinedName(name);
        if IsDefined(name) {
          var t :| t in parent.Chain() && name in t.symbols && GetType(name) == t.symbols[name]
            && forall u :: u in parent.Chain() && u.depth > t.depth ==> name !in u.symbols;
          assert t in Chain();
        }
      }
    }

    /** Every scope on the chain sits at this scope's depth or lower. */
    lemma {:induction false} ChainDepths()
      requires Linked()
      ensures forall u :: u in Chain() ==> u.depth <= depth
      decreases depth
    {
      if parent != null {
        parent.ChainDepths();
      }
    }

    /** createChildScope: an empty scope inside this one, which sees what this one sees. */
    method CreateChildScope() returns (c: SymbolTable)
      requires Linked()
      ensures fresh(c) && c.parent == this && c.symbols == map[] && c.Linked() && c.depth == depth + 1
      ensures forall n :: c.IsDefined(n) == IsDefined(n) && c.GetType(n) == GetType(n)
    {
      c := new SymbolTable(this);
    }
  }

  /** The prologue of the emitted main function. */
  const MainPrologue: string :=
    "int main(int argc, char** argv) {\n    // Initialize runtime\n    initializeRuntime();\n\n"
    + "    // Create global context\n    auto globalContext = std::make_shared<Context>(\"global\");\n\n"

  const DeclarationsBanner := "// Function declarations\n"
  const DefinitionsBanner := "// Function definitions\n"
  const MainBanner := "// Main function\n"
  const Epilogue := "    return 0;\n}\n"

  /** The name generateUniqueVarName gives for a counter value. */
  function UniqueName(prefix: string, n: nat): string {
    prefix + "_" + NatToString(n)
  }

  /** Different counter values give different names. */
  lemma UniqueNamesDiffer(prefix: string, i: nat, j: nat)
    requires i != j
    ensures UniqueName(prefix, i) != UniqueName(prefix, j)
  {
    if UniqueName(prefix, i) == UniqueName(prefix, j) {
      var p := prefix + "_";
      assert UniqueName(prefix, i) == p + NatToString(i);
      assert UniqueName(prefix, j) == p + NatToString(j);
      assert NatToString(i) == (p + NatToString(i))[|p|..];
      assert NatToString(j) == (p + NatToString(j))[|p|..];
      NatToStringInjective(i, j);
    }
  }

  class Visitor {
    var currentScope: SymbolTable
    var headerCode: string
    var functionDeclarations: string
    var functionDefinitions: string
    var mainCode: string
    var uniqueCounter: nat

    ghost predicate Valid()
      reads this
    {
      currentScope.Linked()
    }

    /** A fresh global scope, the standard headers, main's prologue, nothing else yet. */
    constructor()
      ensures Valid() && fresh(currentScope) && currentScope.parent == null && currentScope.symbols == map[]
      ensures headerCode == CodeGenerator.StandardHeaders && mainCode == MainPrologue
      ensures functionDeclarations == "" && functionDefinitions == "" && uniqueCounter == 0
    {
      currentScope := new SymbolTable(null);
      headerCode := CodeGenerator.StandardHeaders;
      functionDeclarations := "";
      functionDefinitions := "";
      mainCode := MainPrologue;
      uniqueCounter := 0;
    }

    /** enterScope: the new current scope is a child of the previous one. */
    method EnterScope()
      requires Valid()
      modifies this
      ensures Valid() && fresh(currentScope) && currentScope.parent == old(currentScope)
      ensures currentScope.symbols == map[] && currentScope.depth == old(currentScope.depth) + 1
      ensures headerCode == old(headerCode) && functionDeclarations == old(functionDeclarations)
      ensures functionDefinitions == old(functionDefinitions) && mainCode == old(mainCode)
      ensures uniqueCounter == old(uniqueCounter)
    {
      currentScope := currentScope.CreateChildScope();
    }

    /** exitScope does nothing, so it changes no field: the current scope stays the
        innermost one entered and the depth never goes back down. */
    method ExitScope()
    {
    }

    /** generateUniqueVarName: prefix_N for the current counter, which then goes up by one. */
    method GenerateUniqueVarName(prefix: string) returns (name: string)
      modifies this
      ensures name == UniqueName(prefix, old(uniqueCounter)) && uniqueCounter == old(uniqueCounter) + 1
      ensures currentScope == old(currentScope) && headerCode == old(headerCode) && mainCode == old(mainCode)
      ensures functionDeclarations == old(functionDeclarations) && functionDefinitions == old(functionDefinitions)
    {
      name := UniqueName(prefix, uniqueCounter);
      uniqueCounter := uniqueCounter + 1;
    }

    /** getGeneratedCode: header, declarations, definitions and main, each section
        under its banner, then main's closing, laid out as `Layout` says. */
    function GeneratedCode(): (r: string)
      reads this
    {
      Layout(headerCode, DeclarationsBanner, functionDeclarations, DefinitionsBanner, functionDefinitions,
        MainBanner, mainCode, Epilogue)
    }
  }

  /** The program text: each section after its banner, declarations and definitions
      each followed by a newline, then the epilogue. */
  function Layout(header: string, declBanner: string, decls: string, defBanner: string, defs: string,
                  mainBanner: string, main: string, epilogue: string): (r: string)
    ensures |r| == |header| + |declBanner| + |decls| + 1 + |defBanner| + |defs| + 1 + |mainBanner| + |main| + |epilogue|
    ensures r[..|header|] == header
    ensures r[|header|..|header| + |declBanner|] == declBanner
    ensures r[|header| + |declBanner|..|header| + |declBanner| + |decls|] == decls
    ensures var d := |header| + |declBanner| + |decls| + 1;
      r[d - 1] == '\n' && r[d..d + |defBanner|] == defBanner && r[d + |defBanner|..d + |defBanner| + |defs|] == defs
    ensures var m := |r| - |epilogue| - |main|;
      r[m - |mainBanner| - 1] == '\n' && r[m - |mainBanner|..m] == mainBanner
    ensures r[|r| - |epilogue| - |main|..|r| - |epilogue|] == main
    ensures r[|r| - |epilogue|..] == epilogue
  {
    var before := header + declBanner + decls + "\n";
    var middle := defBanner + defs;
    var after := "\n" + mainBanner + main + epilogue;
    var r := before + middle + after;
    SliceOfMiddle(r, before, middle, after, |before|, 0, |defBanner|);
    SliceOfMiddle(r, before, middle, after, |before| + |defBanner|, |defBanner|, |defs|);
    assert r[..|before|] == before;
    assert r == (header + declBanner + decls + "\n") + (defBanner + defs) + ("\n" + mainBanner + main + epilogue);
    r
  }

  /** Names drawn one after another from the same visitor are all different. */
  method TwoNamesDiffer(v: Visitor, prefix: string) returns (a: string, b: string)
    modifies v
    ensures a != b
  {
    a := v.GenerateUniqueVarName(prefix);
    b := v.GenerateUniqueVarName(prefix);
    UniqueNamesDiffer(prefix, v.uniqueCounter - 2, v.uniqueCounter - 1);
  }
}
