/** The confirmation box of `ShellExecutor` (aifr/executor.py). */
module ShellExecutor {
  import opened Text
  import opened Joins

  /** `"-" * n`. */
  function Dashes(n: nat): (r: string)
    ensures |r| == n && forall i | 0 <= i < n :: r[i] == '-'
  {
    if n == 0 then "" else Dashes(n - 1) + "-"
  }

  /** `"-" * 40`. */
  const Border: string := Dashes(40)

  const Title := "PROPOSED COMMAND:"

  /** `_format_box`: the command after a title line, between two borders, joined by newlines. */
  function FormatBox(text: string): (r: string)
    ensures r == Join([Border, Title, text, Border], "\n")
  {
    BoxJoin(Border, Title, text, "\n");
    Border + "\n" + Title + "\n" + text + "\n" + Border
  }

  lemma {:induction false} BoxJoin(border: string, title: string, text: string, sep: string)
    ensures Join([border, title, text, border], sep) == border + sep + title + sep + text + sep + border
  {
    JoinCons(border, [title, text, border], sep);
    JoinCons(title, [text, border], sep);
    JoinCons(text, [border], sep);
  }

  /**
   * A one-line command is shown as exactly four lines: a border of 40 dashes,
   * the title, the command, and the same border.
   */
  lemma {:induction false} FormatBoxLines(text: string)
    requires !HasChar(text, '\n')
    ensures Split(FormatBox(text), "\n") == [Border, Title, text, Border]
  {
    TitleOneLine(Title);
    var parts := [Border, Title, text, Border];
    forall k | 0 <= k < |parts| ensures !HasChar(parts[k], "\n"[0]) {
      if k == 1 {
      } else if k == 2 {
      }
    }
    SplitJoin(parts, "\n");
  }

  lemma {:induction false} TitleOneLine(title: string)
    requires title == "PROPOSED COMMAND:"
    ensures !HasChar(title, '\n')
  {
  }
}
