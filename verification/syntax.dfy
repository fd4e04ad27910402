/** An abstract view of the SwiftSyntax tree that the macro inspects and produces. */
module Syntax {
  import opened SwiftStdlib

  /** One binding of a `var`/`let` declaration: its pattern text, its type annotation
      when one is written, and whether it has an accessor block (a computed property or observers).
      The texts are the nodes' full descriptions, trivia included, as string interpolation renders them. */
  datatype PatternBinding = PatternBinding(pattern: string, typeAnnotation: Option<string>, hasAccessors: bool)

  datatype BindingSpecifier = Var | Let

  /** A member of a declaration's member block: a variable declaration (`var` or `let`,
      possibly `static`) with its bindings, or anything else (functions, initializers, nested types, ...). */
  datatype Member =
    | VariableDecl(specifier: BindingSpecifier, isStatic: bool, bindings: seq<PatternBinding>)
    | OtherMember

  /** The kinds of declaration group a member macro can be attached to. */
  datatype DeclKind = Struct | Class | Actor | Enum | Extension | Protocol

  datatype DeclGroup = DeclGroup(kind: DeclKind, members: seq<Member>)

  /** A built initializer: its header text and its body statements, in order. */
  datatype InitializerDecl = InitializerDecl(header: string, statements: seq<string>)

  /** Whether SwiftSyntax's `InitializerDeclSyntax(header) { statements }` succeeds on this header and body. */
  type InitializerBuilder = (string, seq<string>) -> bool
}
