/** The `@NSInit` member macro: from a struct or class declaration it builds one
    `init` whose parameters come from the variable members and whose body assigns
    every one of them. */
module NSInitMacro {
  import opened SwiftStdlib
  import opened Syntax
  import opened NSInitErrors

  // ---------------------------------------------------------------------------
  // Field extraction (getStructInfo / getClassInfo)
  // ---------------------------------------------------------------------------

  /** The names and the types the builder works from; the two lists are extracted independently. */
  datatype Info = Info(names: seq<string>, types: seq<string>)

  /** `$0.decl.as(VariableDeclSyntax.self)`: the bindings of a variable member, nil for any other member. */
  function AsVariableDecl(m: Member): Option<seq<PatternBinding>>
  {
    match m
    case VariableDecl(_, _, bindings) => Some(bindings)
    case OtherMember => None
  }

  /** `$0.bindings.first?.pattern` */
  function FirstPattern(bindings: seq<PatternBinding>): Option<string>
  {
    if bindings == [] then None else Some(bindings[0].pattern)
  }

  /** `$0.bindings.first?.typeAnnotation?.type` */
  function FirstType(bindings: seq<PatternBinding>): Option<string>
  {
    if bindings == [] then None else bindings[0].typeAnnotation
  }

  /** The names and types of a member block: never more types than names. */
  function GetInfo(members: seq<Member>): (info: Info)
    ensures |info.types| <= |info.names|
  {
    var varDecl := CompactMap(members, AsVariableDecl);
    CompactMapMonotone(varDecl, FirstType, FirstPattern);
    Info(CompactMap(varDecl, FirstPattern), CompactMap(varDecl, FirstType))
  }

  /** Reference view: the first binding of every variable member, in source order
      (a member with no bindings contributes nothing). */
  function FirstBindingOf(m: Member): Option<PatternBinding>
  {
    match m
    case VariableDecl(_, _, bindings) => if bindings == [] then None else Some(bindings[0])
    case OtherMember => None
  }

  function Fields(members: seq<Member>): seq<PatternBinding>
  {
    CompactMap(members, FirstBindingOf)
  }

  function Annotation(b: PatternBinding): Option<string>
  {
    b.typeAnnotation
  }

  /** The names are exactly the patterns of the fields, one per field, in order. */
  lemma {:induction false} NamesAreFieldPatterns(members: seq<Member>)
    ensures |GetInfo(members).names| == |Fields(members)|
    ensures forall i :: 0 <= i < |Fields(members)| ==> GetInfo(members).names[i] == Fields(members)[i].pattern
  {
    if members != [] {
      NamesAreFieldPatterns(members[1..]);
    }
  }

  /** The types are the annotations of the fields that carry one, in order: unannotated fields are skipped. */
  lemma {:induction false} TypesAreFieldAnnotations(members: seq<Member>)
    ensures GetInfo(members).types == CompactMap(Fields(members), Annotation)
  {
    if members != [] {
      TypesAreFieldAnnotations(members[1..]);
    }
  }

  /** Extraction distributes over a split of the member block, so source order is kept. */
  lemma ExtractionAppend(a: seq<Member>, b: seq<Member>)
    ensures GetInfo(a + b).names == GetInfo(a).names + GetInfo(b).names
    ensures GetInfo(a + b).types == GetInfo(a).types + GetInfo(b).types
  {
    CompactMapAppend(a, b, AsVariableDecl);
    var va, vb := CompactMap(a, AsVariableDecl), CompactMap(b, AsVariableDecl);
    CompactMapAppend(va, vb, FirstPattern);
    CompactMapAppend(va, vb, FirstType);
  }

  /** When every field is annotated, name i is paired with its own field's type. */
  lemma AlignedWhenAllAnnotated(members: seq<Member>)
    requires forall i :: 0 <= i < |Fields(members)| ==> Fields(members)[i].typeAnnotation.Some?
    ensures |GetInfo(members).types| == |GetInfo(members).names| == |Fields(members)|
    ensures forall i :: 0 <= i < |Fields(members)| ==>
      Zip(GetInfo(members).names, GetInfo(members).types)[i]
        == (Fields(members)[i].pattern, Fields(members)[i].typeAnnotation.value)
  {
    NamesAreFieldPatterns(members);
    TypesAreFieldAnnotations(members);
    CompactMapAllSome(Fields(members), Annotation);
  }

  /** Every variable member whose first binding is annotated contributes its name and its
      type, whether it is `var` or `let`, static or not, stored or computed. */
  lemma AnnotatedVariableInfo(specifier: BindingSpecifier, isStatic: bool, first: PatternBinding,
                              more: seq<PatternBinding>, rest: seq<Member>)
    requires first.typeAnnotation.Some?
    ensures GetInfo([VariableDecl(specifier, isStatic, [first] + more)] + rest)
      == Info([first.pattern] + GetInfo(rest).names, [first.typeAnnotation.value] + GetInfo(rest).types)
  {
    ExtractionAppend([VariableDecl(specifier, isStatic, [first] + more)], rest);
  }

  /** A variable member without a type annotation on its first binding still gives a name
      but no type, so every later type moves one name to the left. */
  lemma UnannotatedVariableShiftsTypes(specifier: BindingSpecifier, isStatic: bool, first: PatternBinding,
                                       more: seq<PatternBinding>, rest: seq<Member>)
    requires first.typeAnnotation.None?
    ensures GetInfo([VariableDecl(specifier, isStatic, [first] + more)] + rest)
      == Info([first.pattern] + GetInfo(rest).names, GetInfo(rest).types)
  {
    ExtractionAppend([VariableDecl(specifier, isStatic, [first] + more)], rest);
  }

  /** Members that are not variables, and variables without bindings, contribute nothing. */
  lemma SkippedMember(m: Member, rest: seq<Member>)
    requires m.OtherMember? || m.bindings == []
    ensures GetInfo([m] + rest) == GetInfo(rest)
  {
    ExtractionAppend([m], rest);
  }

  // ---------------------------------------------------------------------------
  // Header text (the loop over zip(names, types), dropLast(2), ")")
  // ---------------------------------------------------------------------------

  /** One parameter as interpolated into the header: `"\(name): \(type)"`. */
  function Parameter(name: string, ty: string): string
  {
    name + ": " + ty
  }

  function Parameters(pairs: seq<(string, string)>): seq<string>
  {
    seq(|pairs|, i requires 0 <= i < |pairs| => Parameter(pairs[i].0, pairs[i].1))
  }

  /** `items` separated by `sep`. */
  function Join(sep: string, items: seq<string>): string
  {
    if |items| == 0 then ""
    else if |items| == 1 then items[0]
    else Join(sep, items[..|items| - 1]) + sep + items[|items| - 1]
  }

  /** What the loop has appended after `"init("` once it has seen `pairs`: `"name: type, "` for each. */
  function Appended(pairs: seq<(string, string)>): string
  {
    if pairs == [] then ""
    else Appended(pairs[..|pairs| - 1]) + Parameter(pairs[|pairs| - 1].0, pairs[|pairs| - 1].1) + ", "
  }

  /** The header text the builder produces from the zipped pairs. */
  function Header(pairs: seq<(string, string)>): string
  {
    DropLast("init(" + Appended(pairs), 2) + ")"
  }

  /** After at least one pair, the appended text is the joined parameter list plus one trailing `", "`. */
  lemma {:induction false} AppendedIsJoinedList(pairs: seq<(string, string)>)
    requires pairs != []
    ensures Appended(pairs) == Join(", ", Parameters(pairs)) + ", "
  {
    var n := |pairs|;
    var init := pairs[..n - 1];
    var last := Parameter(pairs[n - 1].0, pairs[n - 1].1);
    if n == 1 {
      assert Appended(pairs) == "" + last + ", ";
    } else {
      AppendedIsJoinedList(init);
      assert Parameters(pairs)[..n - 1] == Parameters(init);
      calc {
        Appended(pairs);
        Appended(init) + last + ", ";
        Join(", ", Parameters(init)) + ", " + last + ", ";
        Join(", ", Parameters(pairs)) + ", ";
      }
    }
  }

  /** With at least one pair, `dropLast(2)` removes exactly the trailing `", "`:
      the header is `init(` + the comma-separated parameters + `)`. */
  lemma HeaderOfPairs(pairs: seq<(string, string)>)
    requires pairs != []
    ensures Header(pairs) == "init(" + Join(", ", Parameters(pairs)) + ")"
  {
    AppendedIsJoinedList(pairs);
    var joined := Join(", ", Parameters(pairs));
    assert "init(" + Appended(pairs) == ("init(" + joined) + ", ";
  }

  /** With no pair, `dropLast(2)` eats the `"t("` of `"init("` and the header is `"ini)"`. */
  lemma HeaderOfNoPairs()
    ensures Header([]) == "ini)"
  {
    assert "init(" + Appended([]) == "init(";
    assert DropLast("init(", 2) == "ini";
  }

  /** The imperative header construction of the builder. */
  method BuildHeader(names: seq<string>, types: seq<string>) returns (header: string)
    ensures header == Header(Zip(names, types))
    ensures Min(|names|, |types|) == 0 ==> header == "ini)"
    ensures Min(|names|, |types|) > 0 ==> header == "init(" + Join(", ", Parameters(Zip(names, types))) + ")"
  {
    var pairs := Zip(names, types);
    var initialCode := "init(";
    var i := 0;
    while i < |pairs|
      invariant 0 <= i <= |pairs|
      invariant initialCode == "init(" + Appended(pairs[..i])
    {
      var (name, ty) := pairs[i];
      assert pairs[..i + 1][..i] == pairs[..i];
      initialCode := initialCode + Parameter(name, ty) + ", ";
      i := i + 1;
    }
    assert pairs[..i] == pairs;
    initialCode := DropLast(initialCode, 2);
    initialCode := initialCode + ")";
    header := initialCode;
    if pairs == [] {
      HeaderOfNoPairs();
    } else {
      HeaderOfPairs(pairs);
    }
  }

  // ---------------------------------------------------------------------------
  // Body statements (one per name)
  // ---------------------------------------------------------------------------

  /** `"self.\(name) = \(name)"` */
  function Assignment(name: string): string
  {
    "self." + name + " = " + name
  }

  function Statements(names: seq<string>): seq<string>
  {
    seq(|names|, i requires 0 <= i < |names| => Assignment(names[i]))
  }

  /** The result-builder loop over the names: one assignment per name, in name order. */
  method BuildBody(names: seq<string>) returns (statements: seq<string>)
    ensures |statements| == |names|
    ensures forall i :: 0 <= i < |names| ==> statements[i] == Assignment(names[i])
    ensures statements == Statements(names)
  {
    statements := [];
    for i := 0 to |names|
      invariant |statements| == i
      invariant forall k :: 0 <= k < i ==> statements[k] == Assignment(names[k])
    {
      statements := statements + [Assignment(names[i])];
    }
  }

  // ---------------------------------------------------------------------------
  // Building the initializer (buildStructInit / buildClassInit)
  // ---------------------------------------------------------------------------

  /** The initializer the builder asks SwiftSyntax for, whether or not SwiftSyntax accepts it. */
  function Candidate(members: seq<Member>): InitializerDecl
  {
    var info := GetInfo(members);
    InitializerDecl(Header(Zip(info.names, info.types)), Statements(info.names))
  }

  /** The built initializer, or nil when SwiftSyntax rejects the header and body. */
  function Built(members: seq<Member>, parses: InitializerBuilder): Option<InitializerDecl>
  {
    var c := Candidate(members);
    if parses(c.header, c.statements) then Some(c) else None
  }

  /** Builds the initializer of a struct's or a class's member block. */
  method BuildInit(members: seq<Member>, parses: InitializerBuilder) returns (initializer: Option<InitializerDecl>)
    ensures initializer == Built(members, parses)
    ensures initializer.Some? <==> parses(Candidate(members).header, Candidate(members).statements)
    ensures initializer.Some? ==> |initializer.value.statements| == |GetInfo(members).names|
  {
    var info := GetInfo(members);
    var header := BuildHeader(info.names, info.types);
    var statements := BuildBody(info.names);
    if parses(header, statements) {
      initializer := Some(InitializerDecl(header, statements));
    } else {
      initializer := None;
    }
  }

  /** The number of header parameters is min(|names|, |types|), which is |types|. */
  lemma ParameterCount(members: seq<Member>)
    ensures var info := GetInfo(members);
      |Zip(info.names, info.types)| == Min(|info.names|, |info.types|) == |info.types|
  {
  }

  /** The body has one statement per name however many types were found; the header
      has one parameter per zipped pair. */
  lemma CandidateShape(members: seq<Member>)
    ensures var info, c := GetInfo(members), Candidate(members);
      && |c.statements| == |info.names|
      && (forall i :: 0 <= i < |info.names| ==> c.statements[i] == "self." + info.names[i] + " = " + info.names[i])
      && (info.types == [] ==> c.header == "ini)")
      && (info.types != [] ==> c.header == "init(" + Join(", ", Parameters(Zip(info.names, info.types))) + ")")
  {
    var info := GetInfo(members);
    var pairs := Zip(info.names, info.types);
    if info.types == [] {
      assert pairs == [];
      HeaderOfNoPairs();
    } else {
      HeaderOfPairs(pairs);
    }
  }

  // ---------------------------------------------------------------------------
  // Expansion
  // ---------------------------------------------------------------------------

  function Unwrap(initializer: Option<InitializerDecl>): Result<seq<InitializerDecl>, NSInitError>
  {
    match initializer
    case None => Failure(UnableToBuildInit)
    case Some(i) => Success([i])
  }

  /** The members the macro adds to `decl`, or the error it throws. */
  function Expand(decl: DeclGroup, parses: InitializerBuilder): Result<seq<InitializerDecl>, NSInitError>
  {
    match decl.kind
    case Struct => Unwrap(Built(decl.members, parses))
    case Class => Unwrap(Built(decl.members, parses))
    case _ => Failure(OnlyApplicableToStructOrClass)
  }

  /** `NSInitMacro.expansion(of:providingMembersOf:in:)` */
  method Expansion(decl: DeclGroup, parses: InitializerBuilder) returns (r: Result<seq<InitializerDecl>, NSInitError>)
    ensures r == Expand(decl, parses)
    ensures !(decl.kind.Struct? || decl.kind.Class?) ==> r == Failure(OnlyApplicableToStructOrClass)
    ensures (decl.kind.Struct? || decl.kind.Class?) ==>
      r == if parses(Candidate(decl.members).header, Candidate(decl.members).statements)
           then Success([Candidate(decl.members)]) else Failure(UnableToBuildInit)
  {
    var initializer: Option<InitializerDecl>;
    if decl.kind == Struct {
      initializer := BuildInit(decl.members, parses);
    } else if decl.kind == Class {
      initializer := BuildInit(decl.members, parses);
    } else {
      return Failure(OnlyApplicableToStructOrClass);
    }
    if initializer.None? {
      return Failure(UnableToBuildInit);
    }
    return Success([initializer.value]);
  }

  /** Only structs and classes are accepted: the other kinds, and only they, get
      `onlyApplicableToStructOrClass`, and no members. */
  lemma KindGating(decl: DeclGroup, parses: InitializerBuilder)
    ensures Expand(decl, parses) == Failure(OnlyApplicableToStructOrClass)
      <==> !(decl.kind.Struct? || decl.kind.Class?)
  {
  }

  /** A struct or a class either gets exactly one initializer, the candidate, or
      `unableToBuildInit` when SwiftSyntax rejects the candidate. */
  lemma ResultShape(decl: DeclGroup, parses: InitializerBuilder)
    requires decl.kind.Struct? || decl.kind.Class?
    ensures Expand(decl, parses).Success? ==> Expand(decl, parses).value == [Candidate(decl.members)]
    ensures Expand(decl, parses).Failure? <==> !parses(Candidate(decl.members).header, Candidate(decl.members).statements)
    ensures Expand(decl, parses).Failure? ==> Expand(decl, parses).error == UnableToBuildInit
  {
  }

  /** The struct path and the class path give the same result for the same members. */
  lemma StructClassEquivalence(members: seq<Member>, parses: InitializerBuilder)
    ensures Expand(DeclGroup(Struct, members), parses) == Expand(DeclGroup(Class, members), parses)
  {
  }
}
