/** The concrete syntax of JSON texts (RFC 8259, sections 2 to 7): any layout, any escapes. */
module JsonText {

  /** One element of a string literal: a character as it is, or a backslash and the character after
      it. The hex digits of a \u escape are ordinary characters here. */
  datatype Element = Plain(c: char) | Escape(c: char)

  datatype Text =
    | Scalar(token: string)                                  // a number, true, false or null
    | Quoted(elements: seq<Element>)
    | ArrayText(space: string, items: seq<Padded>)
    | ObjectText(space: string, members: seq<Member>)

  datatype Padded = Padded(before: string, item: Text, after: string)

  datatype Member = Member(before: string, key: seq<Element>, colon: string, value: Padded)

  predicate IsSpace(s: string) {
    forall i | 0 <= i < |s| :: s[i] == ' ' || s[i] == '\t' || s[i] == '\n' || s[i] == '\r'
  }

  /** The characters of numbers and of the three literal names. */
  predicate IsToken(s: string) {
    forall i | 0 <= i < |s| :: '0' <= s[i] <= '9' || 'a' <= s[i] <= 'z' || s[i] == 'E' || s[i] == '+' || s[i] == '-'
        || s[i] == '.'
  }

  predicate ElementsOk(elements: seq<Element>) {
    forall i | 0 <= i < |elements| && elements[i].Plain? :: elements[i].c != '"' && elements[i].c != '\\'
  }

  predicate Ok(t: Text) {
    match t
    case Scalar(token) => IsToken(token)
    case Quoted(elements) => ElementsOk(elements)
    case ArrayText(space, items) => IsSpace(space) && forall i | 0 <= i < |items| :: PaddedOk(items[i])
    case ObjectText(space, members) => IsSpace(space) && forall i | 0 <= i < |members| :: MemberOk(members[i])
  }

  predicate PaddedOk(p: Padded) {
    IsSpace(p.before) && Ok(p.item) && IsSpace(p.after)
  }

  predicate MemberOk(m: Member) {
    IsSpace(m.before) && ElementsOk(m.key) && IsSpace(m.colon) && PaddedOk(m.value)
  }

  function PrintElements(elements: seq<Element>): string {
    if elements == [] then ""
    else (if elements[0].Plain? then [elements[0].c] else ['\\', elements[0].c]) + PrintElements(elements[1..])
  }

  function PrintQuoted(elements: seq<Element>): string {
    "\"" + PrintElements(elements) + "\""
  }

  function Print(t: Text): string {
    match t
    case Scalar(token) => token
    case Quoted(elements) => PrintQuoted(elements)
    case ArrayText(space, items) => "[" + space + PrintItems(items) + "]"
    case ObjectText(space, members) => "{" + space + PrintMembers(members) + "}"
  }

  function PrintPadded(p: Padded): string {
    p.before + Print(p.item) + p.after
  }

  function PrintItems(items: seq<Padded>): string {
    if items == [] then ""
    else if |items| == 1 then PrintPadded(items[0])
    else PrintPadded(items[0]) + "," + PrintItems(items[1..])
  }

  function PrintMember(m: Member): string {
    m.before + PrintQuoted(m.key) + m.colon + ":" + PrintPadded(m.value)
  }

  function PrintMembers(members: seq<Member>): string {
    if members == [] then ""
    else if |members| == 1 then PrintMember(members[0])
    else PrintMember(members[0]) + "," + PrintMembers(members[1..])
  }
}
