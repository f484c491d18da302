/**
 The project descriptor (`create_project_yaml_content`): a fixed YAML
 text with the monitor id and the monitor name pasted in between double
 quotes, without any escaping. `ReadProject` is the reading side used to
 state what the text determines.
 */
module ProjectDescriptor {
  import opened Wrappers
  import opened Text

  const TemplateFileName := "monitor.json"
  const ApiName := "synthetic-monitor"

  /** The text before the id. */
  const Head := "configs:\n  - id: \""
  /** The text between the id and the name. */
  const Middle := "\"\n    config:\n      name: \""
  /** The text after the name, naming the template file and the api. */
  const Tail := "\" # Dynatrace上での設定名にもなる\n      template: \"" + TemplateFileName
    + "\"\n      # parameters は使用しない\n    type:\n      api: \"" + ApiName + "\"\n"

  /** The descriptor text for one monitor. */
  function CreateProjectYamlContent(monitorId: string, monitorName: string): string {
    Head + monitorId + Middle + monitorName + Tail
  }

  /** Reads two quoted values out of a text laid out as `head`, value,
      `middle`, value, `tail`, where `middle` and `tail` each start with
      the closing quote of the value before them. */
  function ReadFields(text: string, head: string, middle: string, tail: string): Option<(string, string)>
    requires middle != [] && tail != []
  {
    if |text| < |head| || text[..|head|] != head then None
    else
      var rest := text[|head|..];
      if '"' !in rest then None
      else
        var (first, afterFirst) := SplitOnce(rest, '"');
        var m := middle[1..];
        if |afterFirst| < |m| || afterFirst[..|m|] != m then None
        else
          var rest2 := afterFirst[|m|..];
          if '"' !in rest2 then None
          else
            var (second, afterSecond) := SplitOnce(rest2, '"');
            if afterSecond != tail[1..] then None else Some((first, second))
  }

  lemma ReadFieldsRoundTrip(head: string, first: string, middle: string, second: string, tail: string)
    requires middle != [] && middle[0] == '"' && tail != [] && tail[0] == '"'
    requires '"' !in first && '"' !in second
    ensures ReadFields(head + first + middle + second + tail, head, middle, tail) == Some((first, second))
  {
    var text := head + first + middle + second + tail;
    var m := middle[1..];
    var t := tail[1..];
    assert middle == ['"'] + m;
    assert tail == ['"'] + t;
    assert text[..|head|] == head;
    var rest := text[|head|..];
    assert rest == first + ['"'] + (m + second + tail);
    SplitOnceOf(first, '"', m + second + tail);
    assert rest[|first|] == '"';
    var afterFirst := m + second + tail;
    assert afterFirst[..|m|] == m;
    var rest2 := afterFirst[|m|..];
    assert rest2 == second + ['"'] + t;
    assert rest2[|second|] == '"';
    SplitOnceOf(second, '"', t);
  }

  lemma ReadFieldsSound(text: string, head: string, middle: string, tail: string)
    requires middle != [] && middle[0] == '"' && tail != [] && tail[0] == '"'
    ensures ReadFields(text, head, middle, tail).Some? ==>
      var (first, second) := ReadFields(text, head, middle, tail).value;
      && '"' !in first && '"' !in second
      && head + first + middle + second + tail == text
  {
    if ReadFields(text, head, middle, tail).Some? {
      var rest := text[|head|..];
      var split1 := SplitOnce(rest, '"');
      var first, afterFirst := split1.0, split1.1;
      var m := middle[1..];
      var rest2 := afterFirst[|m|..];
      var split2 := SplitOnce(rest2, '"');
      var second, afterSecond := split2.0, split2.1;
      assert ReadFields(text, head, middle, tail) == Some((first, second));
      PrefixRest(text, head);
      PrefixRest(afterFirst, m);
      FirstRest(middle);
      FirstRest(tail);
      Reassemble(text, head, rest, first, afterFirst, m, rest2, second, afterSecond);
    }
  }

  /** A sequence that starts with `p` is `p` followed by the rest. */
  lemma PrefixRest(s: string, p: string)
    requires |p| <= |s| && s[..|p|] == p
    ensures s == p + s[|p|..]
  {
  }

  lemma FirstRest(s: string)
    requires s != []
    ensures s == [s[0]] + s[1..]
  {
  }

  /** The concatenation steps behind `ReadFieldsSound`, in a context of their own. */
  lemma Reassemble(text: string, head: string, rest: string, first: string, afterFirst: string,
                   m: string, rest2: string, second: string, afterSecond: string)
    requires text == head + rest
    requires rest == first + ['"'] + afterFirst
    requires afterFirst == m + rest2
    requires rest2 == second + ['"'] + afterSecond
    ensures text == head + first + (['"'] + m) + second + (['"'] + afterSecond)
  {
  }

  lemma FragmentsStartWithQuote()
    ensures Middle != [] && Middle[0] == '"' && Tail != [] && Tail[0] == '"'
  {
  }

  /** Reads the id and the name back out of a descriptor text. */
  function ReadProject(text: string): Option<(string, string)> {
    FragmentsStartWithQuote();
    ReadFields(text, Head, Middle, Tail)
  }

  /** An id and a name without double quotes are read back from the
      descriptor exactly. */
  lemma ReadProjectRoundTrip(monitorId: string, monitorName: string)
    requires '"' !in monitorId && '"' !in monitorName
    ensures ReadProject(CreateProjectYamlContent(monitorId, monitorName)) == Some((monitorId, monitorName))
  {
    FragmentsStartWithQuote();
    ReadFieldsRoundTrip(Head, monitorId, Middle, monitorName, Tail);
  }

  /** Whatever `ReadProject` accepts is the descriptor of what it returns,
      and the values it returns hold no double quote. */
  lemma ReadProjectSound(text: string)
    ensures ReadProject(text).Some? ==>
      var (id, name) := ReadProject(text).value;
      && '"' !in id && '"' !in name
      && CreateProjectYamlContent(id, name) == text
  {
    FragmentsStartWithQuote();
    ReadFieldsSound(text, Head, Middle, Tail);
  }

  /** For quote-free values the descriptor determines the id and the name. */
  lemma ProjectYamlInjective(id1: string, name1: string, id2: string, name2: string)
    requires '"' !in id1 && '"' !in name1 && '"' !in id2 && '"' !in name2
    requires CreateProjectYamlContent(id1, name1) == CreateProjectYamlContent(id2, name2)
    ensures id1 == id2 && name1 == name2
  {
    ReadProjectRoundTrip(id1, name1);
    ReadProjectRoundTrip(id2, name2);
  }

  lemma ShiftMiddle(head: string, first: string, middle: string, second: string, tail: string)
    ensures head + first + middle + (middle + second) + tail == head + (first + middle) + middle + second + tail
  {
  }

  /** Without escaping, a double quote in the id or the name lets two
      different (id, name) pairs give the same descriptor text. */
  lemma ProjectYamlAmbiguousWithQuotes()
    ensures ("a", Middle + "b") != ("a" + Middle, "b")
    ensures CreateProjectYamlContent("a", Middle + "b") == CreateProjectYamlContent("a" + Middle, "b")
  {
    assert |Middle + "b"| != |"b"|;
    ShiftMiddle(Head, "a", Middle, "b", Tail);
  }
}
