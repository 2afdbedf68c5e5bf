/** The syntax tree handed to the bytecode generator. */
module Ast {
  import opened Wrappers

  datatype BinaryOperator = Add | Subtract | Multiply | Divide

  datatype ASTNode =
    | StringLiteral(text: string)
    | NumberLiteral(number: real)
    | BinaryOp(left: ASTNode, op: BinaryOperator, right: ASTNode)
    | Variable(name: string)
    | Assignment(target: string, expr: ASTNode)
    | If(condition: ASTNode, thenBranch: ASTNode, elseBranch: Option<ASTNode>)
    | While(condition: ASTNode, body: ASTNode)
    | Block(statements: seq<ASTNode>)
}
