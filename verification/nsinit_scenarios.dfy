/** The expansions the test suite expects, and the edge cases of the builder, on concrete declarations. */
module NSInitScenarios {
  import opened SwiftStdlib
  import opened Syntax
  import opened NSInitErrors
  import opened NSInitMacro

  function Field(name: string, ty: string): Member
  {
    VariableDecl(Var, false, [PatternBinding(name, Some(ty), false)])
  }

  /** The members of the test suite's `Car`, built from the last field backwards. */
  function CarMembers(): seq<Member>
  {
    [Field("number", "Int")] + CarFrom1()
  }

  function CarFrom1(): seq<Member> { [Field("name", "String")] + CarFrom2() }
  function CarFrom2(): seq<Member> { [Field("model", "String")] + CarFrom3() }
  function CarFrom3(): seq<Member> { [Field("color", "String")] + CarFrom4() }
  function CarFrom4(): seq<Member> { [Field("size", "Double")] }

  const CarHeader: string := "init(number: Int, name: String, model: String, color: String, size: Double)"

  const CarStatements: seq<string> := [
    "self.number = number", "self.name = name", "self.model = model",
    "self.color = color", "self.size = size"]

  function CarPairs(): seq<(string, string)>
  {
    [("number", "Int"), ("name", "String"), ("model", "String"), ("color", "String"), ("size", "Double")]
  }

  lemma AnnotatedFieldInfo(name: string, ty: string, rest: seq<Member>)
    ensures GetInfo([Field(name, ty)] + rest) == Info([name] + GetInfo(rest).names, [ty] + GetInfo(rest).types)
  {
    AnnotatedVariableInfo(Var, false, PatternBinding(name, Some(ty), false), [], rest);
  }

  lemma CarInfo4()
    ensures GetInfo(CarFrom4()) == Info(["size"], ["Double"])
  {
    AnnotatedFieldInfo("size", "Double", []);
    assert CarFrom4() + [] == CarFrom4();
  }

  lemma CarInfo3()
    ensures GetInfo(CarFrom3()) == Info(["color", "size"], ["String", "Double"])
  {
    CarInfo4();
    AnnotatedFieldInfo("color", "String", CarFrom4());
  }

  lemma CarInfo2()
    ensures GetInfo(CarFrom2()) == Info(["model", "color", "size"], ["String", "String", "Double"])
  {
    CarInfo3();
    AnnotatedFieldInfo("model", "String", CarFrom3());
  }

  lemma CarInfo1()
    ensures GetInfo(CarFrom1()) == Info(["name", "model", "color", "size"], ["String", "String", "String", "Double"])
  {
    CarInfo2();
    AnnotatedFieldInfo("name", "String", CarFrom2());
  }

  lemma CarInfo()
    ensures GetInfo(CarMembers()) == Info(["number", "name", "model", "color", "size"], ["Int", "String", "String", "String", "Double"])
    ensures Zip(GetInfo(CarMembers()).names, GetInfo(CarMembers()).types) == CarPairs()
  {
    CarInfo1();
    AnnotatedFieldInfo("number", "Int", CarFrom1());
  }

  /** After `"init("`, joining one more item appends the separator and the item. */
  lemma JoinStep(items: seq<string>, k: nat)
    requires 0 < k < |items|
    ensures "init(" + Join(", ", items[..k + 1]) == ("init(" + Join(", ", items[..k])) + ", " + items[k]
  {
    assert items[..k + 1][..k] == items[..k];
  }

  function CarParameters(): seq<string>
  {
    ["number: Int", "name: String", "model: String", "color: String", "size: Double"]
  }

  lemma CarParameterList()
    ensures Parameters(CarPairs()) == CarParameters()
  {
    assert Parameter("number", "Int") == "number: Int";
    assert Parameter("name", "String") == "name: String";
    assert Parameter("model", "String") == "model: String";
    assert Parameter("color", "String") == "color: String";
    assert Parameter("size", "Double") == "size: Double";
  }

  // The header is checked from left to right, one parameter at a time.

  lemma CarHeader1()
    ensures "init(" + Join(", ", CarParameters()[..1]) == "init(number: Int"
  {
    assert CarParameters()[..1] == ["number: Int"];
  }

  lemma CarHeader2()
    ensures "init(" + Join(", ", CarParameters()[..2]) == "init(number: Int, name: String"
  {
    CarHeader1();
    JoinStep(CarParameters(), 1);
    assert CarParameters()[1] == "name: String";
    assert "init(number: Int" + ", " + "name: String" == "init(number: Int, name: String";
  }

  lemma CarHeader3()
    ensures "init(" + Join(", ", CarParameters()[..3]) == "init(number: Int, name: String, model: String"
  {
    CarHeader2();
    JoinStep(CarParameters(), 2);
    assert CarParameters()[2] == "model: String";
    assert "init(number: Int, name: String" + ", " + "model: String" == "init(number: Int, name: String, model: String";
  }

  lemma CarHeader4()
    ensures "init(" + Join(", ", CarParameters()[..4]) == "init(number: Int, name: String, model: String, color: String"
  {
    CarHeader3();
    JoinStep(CarParameters(), 3);
    assert CarParameters()[3] == "color: String";
    assert "init(number: Int, name: String, model: String" + ", " + "color: String" == "init(number: Int, name: String, model: String, color: String";
  }

  lemma CarHeader5()
    ensures "init(" + Join(", ", CarParameters()) == "init(number: Int, name: String, model: String, color: String, size: Double"
  {
    CarHeader4();
    JoinStep(CarParameters(), 4);
    assert CarParameters()[4] == "size: Double";
    assert "init(number: Int, name: String, model: String, color: String" + ", " + "size: Double" == "init(number: Int, name: String, model: String, color: String, size: Double";
    assert CarParameters()[..5] == CarParameters();
  }

  lemma CarHeaderText()
    ensures Header(CarPairs()) == CarHeader
  {
    HeaderOfPairs(CarPairs());
    CarParameterList();
    CarHeader5();
  }

  lemma CarBody()
    ensures Statements(["number", "name", "model", "color", "size"]) == CarStatements
  {
    assert Assignment("number") == "self.number = number";
    assert Assignment("name") == "self.name = name";
    assert Assignment("model") == "self.model = model";
    assert Assignment("color") == "self.color = color";
    assert Assignment("size") == "self.size = size";
  }

  /** `Car` as a struct and as a class expands to the same five-parameter initializer
      with five assignments, whenever SwiftSyntax accepts it. */
  lemma CarExpansion(parses: InitializerBuilder)
    requires parses(CarHeader, CarStatements)
    ensures Expand(DeclGroup(Struct, CarMembers()), parses) == Success([InitializerDecl(CarHeader, CarStatements)])
    ensures Expand(DeclGroup(Class, CarMembers()), parses) == Success([InitializerDecl(CarHeader, CarStatements)])
  {
    CarInfo();
    CarHeaderText();
    CarBody();
    assert Candidate(CarMembers()) == InitializerDecl(CarHeader, CarStatements);
  }

  /** `var count = 0` followed by `var label: String`; the pattern `count` keeps the
      space before `=` as its trailing trivia. */
  function UnannotatedFirst(): seq<Member>
  {
    [VariableDecl(Var, false, [PatternBinding("count ", None, false)])] + [Field("label", "String")]
  }

  lemma UnannotatedFirstInfo()
    ensures GetInfo(UnannotatedFirst()) == Info(["count ", "label"], ["String"])
  {
    AnnotatedFieldInfo("label", "String", []);
    assert [Field("label", "String")] + [] == [Field("label", "String")];
    UnannotatedVariableShiftsTypes(Var, false, PatternBinding("count ", None, false), [], [Field("label", "String")]);
  }

  /** The unannotated `count` is paired with `label`'s type, while both names are assigned;
      the trivia of `count` is interpolated along with it. */
  lemma MissingAnnotationMisaligns()
    ensures Candidate(UnannotatedFirst()).header == "init(count : String)"
    ensures Candidate(UnannotatedFirst()).statements == ["self.count  = count ", "self.label = label"]
  {
    UnannotatedFirstInfo();
    var pairs := Zip(["count ", "label"], ["String"]);
    assert pairs == [("count ", "String")];
    HeaderOfPairs(pairs);
    assert Parameter("count ", "String") == "count : String";
    assert Parameters(pairs) == ["count : String"];
    assert Join(", ", ["count : String"]) == "count : String";
    assert "init(" + "count : String" + ")" == "init(count : String)";
    assert Assignment("count ") == "self.count  = count ";
    assert Assignment("label") == "self.label = label";
  }

  /** A member block without any variable member that has a binding has no fields. */
  lemma {:induction false} NoVariableMembersNoFields(members: seq<Member>)
    requires forall m :: m in members ==> m.OtherMember? || m.bindings == []
    ensures Fields(members) == []
  {
    if members != [] {
      assert members[0] in members;
      NoVariableMembersNoFields(members[1..]);
    }
  }

  /** A struct or class without variable members (the empty block included) gets the
      header `"ini)"` and an empty body; whether that succeeds is up to SwiftSyntax. */
  lemma NoFieldsHeader(kind: DeclKind, members: seq<Member>, parses: InitializerBuilder)
    requires kind.Struct? || kind.Class?
    requires forall m :: m in members ==> m.OtherMember? || m.bindings == []
    ensures Expand(DeclGroup(kind, members), parses)
      == if parses("ini)", []) then Success([InitializerDecl("ini)", [])]) else Failure(UnableToBuildInit)
  {
    NoVariableMembersNoFields(members);
    NamesAreFieldPatterns(members);
    TypesAreFieldAnnotations(members);
    var info := GetInfo(members);
    assert info.names == [] && info.types == [];
    assert Zip(info.names, info.types) == [];
    assert Statements(info.names) == [];
    HeaderOfNoPairs();
    assert Candidate(members) == InitializerDecl("ini)", []);
  }

  /** An enum is refused whatever its members. */
  lemma EnumRefused(members: seq<Member>, parses: InitializerBuilder)
    ensures Expand(DeclGroup(Enum, members), parses).Failure?
    ensures Description(Expand(DeclGroup(Enum, members), parses).error) == "@NSInit is only applied to a struct or class."
  {
  }
}
