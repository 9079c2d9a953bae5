/**
 * The application's exception table and message formatting (src/app/setting/exceptions.py).
 *
 * A raised exception is a `Fault`: either one of the application's own classes, carrying
 * the argument it was raised with, or an exception of some other class, known only by its
 * class name and its `str()`.
 */
module Exceptions {
  import opened Wrappers

  /** `CathayDefinedException` and its six subclasses. */
  datatype ErrorClass =
    | CathayDefined
    | ParsingJson
    | ParsingHeader
    | ParsingTranRq
    | Permission
    | DBInsert
    | TimeOut

  /** The argument an exception was raised with: none, a text, or another exception. */
  datatype Arg = NoArg | Text(text: string) | Cause(fault: Fault)

  datatype Fault =
    | Defined(cls: ErrorClass, arg: Arg)
    | Raised(name: string, message: string)

  /** What a template field records when a call raised: a text or the exception object itself. */
  datatype Reason = Said(text: string) | Caught(fault: Fault)

  /** The class constant `error_code`. */
  function Code(cls: ErrorClass): string
  {
    match cls
    case CathayDefined => "XXXX"
    case ParsingJson => "1001"
    case ParsingHeader => "1002"
    case ParsingTranRq => "1003"
    case Permission => "2001"
    case DBInsert => "2002"
    case TimeOut => "2003"
  }

  /** The class constant `error_describe`. */
  function Describe(cls: ErrorClass): string
  {
    match cls
    case CathayDefined => "xxxxxxxx"
    case ParsingJson => "非 JSON 格式"
    case ParsingHeader => "上行電文 Header 解析異常"
    case ParsingTranRq => "上行電文欄位檢核異常"
    case Permission => "沒有權限訪問請求資源"
    case DBInsert => "Insert Database 發生異常"
    case TimeOut => "連線逾時"
  }

  /** `type(e).__name__` for the application's classes. */
  function ClassName(cls: ErrorClass): string
  {
    match cls
    case CathayDefined => "CathayDefinedException"
    case ParsingJson => "ParsingJsonError"
    case ParsingHeader => "ParsingHeaderError"
    case ParsingTranRq => "ParsingTranRqError"
    case Permission => "PermissionError"
    case DBInsert => "DBInsertError"
    case TimeOut => "TimeOutError"
  }

  /** The class whose `error_code` is `code`, if any. */
  function ClassOfCode(code: string): (r: Option<ErrorClass>)
    ensures r.Some? ==> Code(r.value) == code
  {
    if code == "XXXX" then Some(CathayDefined)
    else if code == "1001" then Some(ParsingJson)
    else if code == "1002" then Some(ParsingHeader)
    else if code == "1003" then Some(ParsingTranRq)
    else if code == "2001" then Some(Permission)
    else if code == "2002" then Some(DBInsert)
    else if code == "2003" then Some(TimeOut)
    else None
  }

  /** `type(e).__name__`. */
  function Name(e: Fault): string
  {
    match e
    case Defined(cls, _) => ClassName(cls)
    case Raised(name, _) => name
  }

  /** `str(e)`: the application's classes format their code and description in front of the base message. */
  function Str(e: Fault): (r: string)
    ensures e.Raised? ==> r == e.message
    ensures e.Defined? ==> |r| >= |ArgStr(e.arg)| && r[|r| - |ArgStr(e.arg)|..] == ArgStr(e.arg)
    // "[", the code, "]:", the description, " - ", then the base message, each at its own position
    ensures e.Defined? ==>
              var c, d := |Code(e.cls)|, |Describe(e.cls)|;
              && |r| == c + d + 6 + |ArgStr(e.arg)|
              && r[..1] == "[" && r[1..1 + c] == Code(e.cls) && r[1 + c..3 + c] == "]:"
              && r[3 + c..3 + c + d] == Describe(e.cls) && r[3 + c + d..6 + c + d] == " - "
              && r[6 + c + d..] == ArgStr(e.arg)
  {
    match e
    case Defined(cls, arg) => "[" + Code(cls) + "]:" + Describe(cls) + " - " + ArgStr(arg)
    case Raised(_, message) => message
  }

  /** `BaseException.__str__`: empty with no argument, otherwise the argument's own `str()`. */
  function ArgStr(arg: Arg): string
  {
    match arg
    case NoArg => ""
    case Text(s) => s
    case Cause(f) => Str(f)
  }

  /** `fmt_msg(e)`: the class name, a comma and a space, then `str(e)`. */
  function FmtMsg(e: Fault): (r: string)
    ensures |r| == |Name(e)| + 2 + |Str(e)|
    ensures r[..|Name(e)|] == Name(e) && r[|Name(e)|..|Name(e)| + 2] == ", "
    ensures r[|Name(e)| + 2..] == Str(e)
  {
    Name(e) + ", " + Str(e)
  }

  /** Reads the code back out of a formatted message: the four characters between '[' and "]:". */
  function CodeOfMessage(msg: string): Option<string>
  {
    if |msg| >= 7 && msg[0] == '[' && msg[5..7] == "]:" then Some(msg[1..5]) else None
  }

  /** Every code is exactly four characters, as the response header's RETURNCODE field allows. */
  lemma CodesHaveFourCharacters(cls: ErrorClass)
    ensures |Code(cls)| == 4
  {
  }

  /** Every description fits the response header's 50-character RETURNDESC field. */
  lemma DescriptionsFitFifty(cls: ErrorClass)
    ensures |Describe(cls)| <= 50
  {
  }

  /** The codes are pairwise distinct: the code of a class identifies the class. */
  lemma {:induction false} CodeIdentifiesClass(cls: ErrorClass)
    ensures ClassOfCode(Code(cls)) == Some(cls)
  {
    match cls
    case CathayDefined =>
    case ParsingJson =>
    case ParsingHeader =>
    case ParsingTranRq =>
    case Permission =>
    case DBInsert =>
    case TimeOut =>
  }

  /** Two classes with the same code are the same class. */
  lemma CodesDistinct(a: ErrorClass, b: ErrorClass)
    ensures Code(a) == Code(b) <==> a == b
  {
    CodeIdentifiesClass(a);
    CodeIdentifiesClass(b);
  }

  /** The message of an application exception starts with its bracketed code, so the code can be read back from it. */
  lemma {:induction false} MessageCarriesCode(cls: ErrorClass, arg: Arg)
    ensures CodeOfMessage(Str(Defined(cls, arg))) == Some(Code(cls))
    ensures ClassOfCode(CodeOfMessage(Str(Defined(cls, arg))).value) == Some(cls)
  {
    var msg := Str(Defined(cls, arg));
    CodesHaveFourCharacters(cls);
    assert msg == "[" + Code(cls) + "]:" + (Describe(cls) + " - " + ArgStr(arg));
    assert msg[1..5] == Code(cls);
    assert msg[5..7] == "]:";
    CodeIdentifiesClass(cls);
  }

  /** A wrapping exception's message ends with the wrapped exception's message. */
  lemma WrappedMessage(cls: ErrorClass, cause: Fault)
    ensures var msg := Str(Defined(cls, Cause(cause)));
            |msg| >= |Str(cause)| && msg[|msg| - |Str(cause)|..] == Str(cause)
  {
  }
}
