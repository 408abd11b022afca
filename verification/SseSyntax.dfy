/**
 What one line of an event stream says, as both parsers read it
 (HTML Standard, section 9.2.6 "Interpreting an event stream").
 */
module SseSyntax {
  import opened Text

  predicate IsComment(line: string) {
    line != "" && line[0] == ':'
  }

  /** `s` without one leading space. */
  function DropSpace(s: string): string {
    if s != "" && s[0] == ' ' then s[1..] else s
  }

  function CommentText(line: string): string
    requires IsComment(line)
  {
    DropSpace(line[1..])
  }

  /** Everything before the first colon; the whole line if there is none. */
  function FieldName(line: string): string {
    line[..IndexOf(line, ':')]
  }

  /** Everything after the first colon and one optional space. */
  function FieldValue(line: string): string {
    var i := IndexOf(line, ':');
    if i == |line| then "" else DropSpace(line[i + 1..])
  }

  /** The line a printer writes for a field. */
  function FieldLine(name: string, value: string): string {
    name + ": " + value
  }

  lemma {:induction false} FieldLineReadsBack(name: string, value: string)
    requires ':' !in name
    ensures FieldName(FieldLine(name, value)) == name
    ensures FieldValue(FieldLine(name, value)) == value
    ensures name != "" ==> !IsComment(FieldLine(name, value))
    ensures name == "" ==>
              IsComment(FieldLine(name, value)) && CommentText(FieldLine(name, value)) == value
  {
    var line := FieldLine(name, value);
    assert line == name + [':'] + (" " + value);
    IndexOfConcat(name, ':', " " + value);
    assert line[|name| + 1..] == " " + value;
    if name != "" {
      assert line[0] == name[0] && name[0] in name;
    }
  }

  /** The three characters of an encoded byte order mark. */
  const BOM: string := "\U{EF}\U{BB}\U{BF}"

  function StripBom(s: string): string {
    if StartsWith(s, BOM) then s[3..] else s
  }
}
