/** example/utils/is.js: the assignment operators of the example grammar and
    the membership test over them. */
module AssignmentOps {
  import opened Base

  /** The value handed to the test: `indexOf` compares with `===`, so only a
      string can ever equal a list entry. */
  datatype Operand = Text(s: string) | NonString

  /** The thirteen operators, in the order of the list. */
  const AssignmentOperators: seq<string> :=
    ["=", "*=", "**=", "/=", "%=", "+=", "-=", "<<=", ">>=", ">>>=", "&=", "^=", "|="]

  /** `isAssignmentOperator(val)`: `val` occurs in the list. */
  function IsAssignmentOperator(v: Operand): (r: bool)
    ensures r <==> v.Text? && v.s in AssignmentOperators
  {
    match v
    case NonString => false
    case Text(s) => IndexOf(AssignmentOperators, s) != -1
  }

  /** Every operator ends in "=", is at most four characters long, and
      occurs once in the list. */
  lemma {:induction false} OperatorShape()
    ensures |AssignmentOperators| == 13
    ensures forall i :: 0 <= i < |AssignmentOperators| ==>
      1 <= |AssignmentOperators[i]| <= 4 && EndsWith(AssignmentOperators[i], "=")
    ensures forall i, j :: 0 <= i < j < |AssignmentOperators| ==> AssignmentOperators[i] != AssignmentOperators[j]
  {
    var ops := AssignmentOperators;
    forall i | 0 <= i < |ops|
      ensures 1 <= |ops[i]| <= 4 && EndsWith(ops[i], "=")
    {
      assert ops[i][|ops[i]| - 1] == '=';
      assert ops[i][|ops[i]| - 1..] == "=";
    }
  }

  /** Apart from "=" itself, no operator starts with "=" or "!", and those
      starting with "<" or ">" are shifts of at least three characters. */
  lemma {:induction false} OperatorHeads()
    ensures forall op :: op in AssignmentOperators ==>
      op == "=" || (op[0] != '=' && op[0] != '!' && ((op[0] == '<' || op[0] == '>') ==> |op| >= 3))
  {
    var ops := AssignmentOperators;
    forall i | 0 <= i < |ops|
      ensures ops[i] == "=" || (ops[i][0] != '=' && ops[i][0] != '!' && ((ops[i][0] == '<' || ops[i][0] == '>') ==> |ops[i]| >= 3))
    {
    }
  }

  /** The comparison operators that also end in "=" ("==", "===", "!=",
      "<=", ">=") are not assignments: no operator other than "=" starts
      with "=" or "!", and none of two characters starts with "<" or ">". */
  lemma {:induction false} ComparisonsAreNotAssignments(s: string)
    requires |s| >= 2
    requires s[0] == '=' || s[0] == '!' || ((s[0] == '<' || s[0] == '>') && |s| == 2)
    ensures !IsAssignmentOperator(Text(s))
  {
    OperatorHeads();
  }

  /** The longest operator and the plain one are both in the list. */
  lemma {:induction false} ShiftAndPlainAssignments()
    ensures IsAssignmentOperator(Text(">>>=")) && IsAssignmentOperator(Text("="))
  {
    assert AssignmentOperators[9] == ">>>=";
    assert AssignmentOperators[0] == "=";
  }
}
