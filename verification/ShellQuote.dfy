/** Quoting attachment paths for a shell prompt, and the shell's own splitting of the text into words
    (sections 2.2.1 and 2.2.2 of the POSIX Shell Command Language). */
module ShellQuote {
  import opened Prelude

  predicate IsSafe(c: char) {
    'a' <= c <= 'z' || 'A' <= c <= 'Z' || '0' <= c <= '9' || c in "-._/:\\"
  }

  predicate AllSafe(s: string) {
    forall i :: 0 <= i < |s| ==> IsSafe(s[i])
  }

  /** Every quote becomes: close, an escaped quote, reopen. */
  function QuoteBody(s: string): string {
    if s == [] then [] else (if s[0] == '\'' then "'\\''" else [s[0]]) + QuoteBody(s[1..])
  }

  function Escape(path: string): string {
    if AllSafe(path) then path else "'" + QuoteBody(path) + "'"
  }

  function Join(paths: seq<string>): string {
    if paths == [] then []
    else if |paths| == 1 then Escape(paths[0])
    else Escape(paths[0]) + " " + Join(paths[1..])
  }

  const PASTE_START := "\U{1b}[200~"
  const PASTE_END := "\U{1b}[201~"

  // ---- The shell's side

  /** Characters that mean themselves outside quotes. */
  predicate IsPlain(c: char) {
    c !in "|&;<>()$`\"*?[#~=%\n\r"
  }

  function Grow(word: Option<string>, c: char): Option<string> {
    Some(if word.Some? then word.value + [c] else [c])
  }

  function Flush(word: Option<string>): seq<string> {
    if word.Some? then [word.value] else []
  }

  /** The words of `text`, `word` being the one under way; nothing when the text asks the shell for more than
      words (an operator, an expansion, an open quote). */
  function Scan(text: string, word: Option<string>): Option<seq<string>>
    decreases |text|
  {
    if text == [] then Some(Flush(word))
    else if text[0] == ' ' || text[0] == '\t' then
      var rest := Scan(text[1..], None);
      if rest.Some? then Some(Flush(word) + rest.value) else None
    else if text[0] == '\'' then Quoted(text[1..], if word.Some? then word.value else [])
    else if text[0] == '\\' then
      if |text| == 1 then None
      else if text[1] == '\n' then Scan(text[2..], word)
      else Scan(text[2..], Grow(word, text[1]))
    else if IsPlain(text[0]) then Scan(text[1..], Grow(word, text[0]))
    else None
  }

  /** Inside single quotes every character means itself. */
  function Quoted(text: string, word: string): Option<seq<string>>
    decreases |text|
  {
    if text == [] then None
    else if text[0] == '\'' then Scan(text[1..], Some(word))
    else Quoted(text[1..], word + [text[0]])
  }

  function Words(text: string): Option<seq<string>> {
    Scan(text, None)
  }

  // ---- Round trip

  /** The paths that come through: not empty, and not left unquoted with a backslash in them. */
  predicate Faithful(path: string) {
    path != [] && !(AllSafe(path) && '\\' in path)
  }

  /** Safe characters other than the backslash mean themselves to the shell. */
  lemma SafeIsPlain(c: char)
    requires IsSafe(c) && c != '\\'
    ensures IsPlain(c) && c != ' ' && c != '\t' && c != '\''
  {
  }

  lemma SkipQuoted(a: string, rest: string, word: string)
    requires a != [] && a[0] != '\''
    ensures Quoted(a + rest, word) == Quoted(a[1..] + rest, word + [a[0]])
  {
    assert (a + rest)[1..] == a[1..] + rest;
  }

  lemma EscapedQuote(rest: string, word: string)
    ensures Quoted("'\\''" + rest, word) == Quoted(rest, word + "'")
  {
    var t := "'\\''" + rest;
    assert t[0] == '\'' && t[1] == '\\' && t[2] == '\'' && t[3] == '\'';
    var u := t[1..];
    assert u[0] == '\\' && u[1] == '\'' && |u| > 1;
    var v := u[2..];
    assert v[0] == '\'' && v[1..] == rest;
    assert Quoted(t, word) == Scan(u, Some(word));
    assert Scan(u, Some(word)) == Scan(v, Grow(Some(word), '\''));
    assert Scan(v, Some(word + ['\''])) == Quoted(rest, word + ['\'']);
  }

  lemma {:induction false} BodyReads(s: string, rest: string, word: string)
    ensures Quoted(QuoteBody(s) + ("'" + rest), word) == Scan(rest, Some(word + s))
    decreases |s|
  {
    var tail := "'" + rest;
    if s == [] {
      assert QuoteBody(s) + tail == tail && tail[1..] == rest && word + s == word;
    } else {
      var more := QuoteBody(s[1..]) + tail;
      BodyReads(s[1..], rest, word + [s[0]]);
      assert word + [s[0]] + s[1..] == word + s;
      if s[0] == '\'' {
        assert QuoteBody(s) + tail == "'\\''" + more;
        EscapedQuote(more, word);
        assert word + "'" == word + [s[0]];
      } else {
        assert QuoteBody(s) + tail == [s[0]] + more;
        SkipQuoted([s[0]], more, word);
        assert [s[0]][1..] + more == more;
      }
    }
  }

  lemma {:induction false} SafeReads(s: string, rest: string, word: string)
    requires AllSafe(s) && '\\' !in s
    ensures Scan(s + rest, Some(word)) == Scan(rest, Some(word + s))
    decreases |s|
  {
    if s == [] {
      assert s + rest == rest && word + s == word;
    } else {
      SafeIsPlain(s[0]);
      assert (s + rest)[1..] == s[1..] + rest;
      SafeReads(s[1..], rest, word + [s[0]]);
      assert word + [s[0]] + s[1..] == word + s;
    }
  }

  lemma SafePathReads(path: string, rest: string)
    requires path != [] && AllSafe(path) && '\\' !in path
    ensures Scan(path + rest, None) == Scan(rest, Some(path))
  {
    SafeIsPlain(path[0]);
    var text := path + rest;
    assert text[0] == path[0] && text[1..] == path[1..] + rest;
    assert Scan(text, None) == Scan(path[1..] + rest, Some([path[0]]));
    SafeReads(path[1..], rest, [path[0]]);
    assert [path[0]] + path[1..] == path;
  }

  lemma QuotedPathReads(path: string, rest: string)
    ensures Scan("'" + QuoteBody(path) + "'" + rest, None) == Scan(rest, Some(path))
  {
    var body := QuoteBody(path) + ("'" + rest);
    var text := "'" + QuoteBody(path) + "'" + rest;
    assert text == ['\''] + body;
    assert text[0] == '\'' && text[1..] == body;
    BodyReads(path, rest, []);
    assert [] + path == path;
  }

  /** A faithful path is read back whole, whatever follows. */
  lemma EscapeReads(path: string, rest: string)
    requires Faithful(path)
    ensures Scan(Escape(path) + rest, None) == Scan(rest, Some(path))
  {
    if AllSafe(path) {
      SafePathReads(path, rest);
    } else {
      QuotedPathReads(path, rest);
    }
  }

  ghost predicate AllFaithful(paths: seq<string>) {
    forall i :: 0 <= i < |paths| ==> Faithful(paths[i])
  }

  /** Leading faithful paths are read back, and the rest is read on its own. */
  lemma HeadReads(paths: seq<string>)
    requires paths != [] && Faithful(paths[0])
    ensures Words(Join(paths)) ==
            var rest := Words(Join(paths[1..]));
            if rest.Some? then Some([paths[0]] + rest.value) else None
  {
    if |paths| == 1 {
      EscapeReads(paths[0], []);
      assert Escape(paths[0]) + [] == Escape(paths[0]);
      assert paths[1..] == [] && Words([]) == Some([]) && [paths[0]] + [] == [paths[0]];
    } else {
      var tail := Join(paths[1..]);
      EscapeReads(paths[0], " " + tail);
      assert Escape(paths[0]) + " " + tail == Escape(paths[0]) + (" " + tail);
      assert (" " + tail)[0] == ' ' && (" " + tail)[1..] == tail;
    }
  }

  /** Splitting the joined text gives the paths back. */
  lemma {:induction false} JoinSplits(paths: seq<string>)
    requires AllFaithful(paths)
    ensures Words(Join(paths)) == Some(paths)
  {
    if paths != [] {
      HeadReads(paths);
      JoinSplits(paths[1..]);
      assert paths == [paths[0]] + paths[1..];
    }
  }

  // ---- Nothing else comes through

  /** The characters that can reach a word, or end one. */
  function Content(text: string, quoted: bool): nat
    decreases |text|
  {
    if text == [] then 0
    else if text[0] == '\'' then Content(text[1..], !quoted)
    else if quoted || text[0] != '\\' then 1 + Content(text[1..], quoted)
    else if |text| == 1 then 0
    else 1 + Content(text[2..], false)
  }

  function Weight(words: seq<string>): nat {
    if words == [] then 0 else |words[0]| + 1 + Weight(words[1..])
  }

  function Length(word: Option<string>): nat {
    if word.Some? then |word.value| else 0
  }

  lemma {:induction false} ScanWeight(text: string, word: Option<string>)
    ensures Scan(text, word).Some? ==> Weight(Scan(text, word).value) <= Length(word) + Content(text, false) + 1
    decreases |text|
  {
    if text == [] {
    } else if text[0] == ' ' || text[0] == '\t' {
      ScanWeight(text[1..], None);
      var rest := Scan(text[1..], None);
      if rest.Some? {
        if word.Some? {
          assert ([word.value] + rest.value)[1..] == rest.value;
        } else {
          assert [] + rest.value == rest.value;
        }
      }
    } else if text[0] == '\'' {
      QuotedWeight(text[1..], if word.Some? then word.value else []);
    } else if text[0] == '\\' {
      if |text| > 1 {
        ScanWeight(text[2..], if text[1] == '\n' then word else Grow(word, text[1]));
      }
    } else {
      ScanWeight(text[1..], Grow(word, text[0]));
    }
  }

  lemma {:induction false} QuotedWeight(text: string, word: string)
    ensures Quoted(text, word).Some? ==> Weight(Quoted(text, word).value) <= |word| + Content(text, true) + 1
    decreases |text|
  {
    if text == [] {
    } else if text[0] == '\'' {
      ScanWeight(text[1..], Some(word));
    } else {
      QuotedWeight(text[1..], word + [text[0]]);
    }
  }

  /** Text that starts with a blank, or is empty, reads lighter than its content allows. */
  lemma BlankWeight(text: string)
    requires text == [] || text[0] == ' '
    ensures Words(text).Some? ==> Weight(Words(text).value) <= Content(text, false)
  {
    if text != [] {
      ScanWeight(text[1..], None);
      if Scan(text[1..], None).Some? {
        assert Flush(None) + Scan(text[1..], None).value == Scan(text[1..], None).value;
      }
    }
  }

  lemma {:induction false} SafeContent(s: string, rest: string)
    requires AllSafe(s) && (rest == [] || rest[0] == ' ')
    ensures Content(s + rest, false) + (if '\\' in s then 1 else 0) <= |s| + Content(rest, false)
    decreases |s|
  {
    if s == [] {
      assert s + rest == rest;
    } else {
      assert IsSafe(s[0]);
      assert s == [s[0]] + s[1..];
      if s[0] != '\\' {
        assert (s + rest)[1..] == s[1..] + rest;
        SafeContent(s[1..], rest);
      } else if |s| > 1 {
        assert (s + rest)[2..] == s[2..] + rest;
        SafeContent(s[2..], rest);
      } else if rest != [] {
        assert (s + rest)[2..] == rest[1..];
      }
    }
  }

  lemma {:induction false} BodyContent(s: string, rest: string)
    ensures Content(QuoteBody(s) + ("'" + rest), true) == |s| + Content(rest, false)
    decreases |s|
  {
    var tail := "'" + rest;
    if s == [] {
      assert QuoteBody(s) + tail == tail && tail[1..] == rest;
    } else {
      var more := QuoteBody(s[1..]) + tail;
      BodyContent(s[1..], rest);
      if s[0] == '\'' {
        var t := "'\\''" + more;
        assert QuoteBody(s) + tail == t;
        assert t[0] == '\'' && t[1..][0] == '\\' && |t[1..]| > 1 && t[1..][2..][0] == '\'' && t[1..][2..][1..] == more;
        assert Content(t, true) == Content(t[1..], false) == 1 + Content(t[1..][2..], false) == 1 + Content(more, true);
      } else {
        assert QuoteBody(s) + tail == [s[0]] + more;
        assert ([s[0]] + more)[1..] == more;
      }
    }
  }

  lemma EscapeContent(path: string, rest: string)
    requires rest == [] || rest[0] == ' '
    ensures Content(Escape(path) + rest, false) + (if AllSafe(path) && '\\' in path then 1 else 0)
            <= |path| + Content(rest, false)
  {
    if AllSafe(path) {
      SafeContent(path, rest);
    } else {
      var body := QuoteBody(path) + ("'" + rest);
      assert Escape(path) + rest == "'" + body;
      assert ("'" + body)[1..] == body;
      BodyContent(path, rest);
    }
  }

  lemma {:induction false} JoinContent(paths: seq<string>)
    requires paths != []
    ensures Content(Join(paths), false) + 1 + (if AllSafe(paths[0]) && '\\' in paths[0] then 1 else 0) <= Weight(paths)
  {
    if |paths| == 1 {
      assert Escape(paths[0]) + [] == Escape(paths[0]);
      EscapeContent(paths[0], []);
    } else {
      var tail := " " + Join(paths[1..]);
      assert Join(paths) == Escape(paths[0]) + tail;
      EscapeContent(paths[0], tail);
      assert tail[1..] == Join(paths[1..]);
      JoinContent(paths[1..]);
    }
  }

  /** A list that starts with an unfaithful path is not read back. */
  lemma UnfaithfulHead(paths: seq<string>)
    requires paths != [] && !Faithful(paths[0])
    ensures Words(Join(paths)) != Some(paths)
  {
    JoinContent(paths);
    ScanWeight(Join(paths), None);
    if paths[0] == [] {
      BlankWeight(Join(paths));
    }
  }

  /** Splitting the joined text gives back the list exactly when every path in it is faithful. */
  lemma {:induction false} JoinSplitsIff(paths: seq<string>)
    ensures Words(Join(paths)) == Some(paths) <==> AllFaithful(paths)
  {
    if AllFaithful(paths) {
      JoinSplits(paths);
    } else if !Faithful(paths[0]) {
      UnfaithfulHead(paths);
    } else {
      HeadReads(paths);
      assert paths == [paths[0]] + paths[1..];
      assert !AllFaithful(paths[1..]) by {
        var i :| 0 <= i < |paths| && !Faithful(paths[i]);
        assert paths[1..][i - 1] == paths[i];
      }
      JoinSplitsIff(paths[1..]);
    }
  }

  /** Letters, digits and a few marks are left as they are; anything else is quoted. */
  lemma QuotedOnlyIfNeeded(path: string)
    ensures Escape(path) == path
            <==> forall i :: 0 <= i < |path| ==>
                   'a' <= path[i] <= 'z' || 'A' <= path[i] <= 'Z' || '0' <= path[i] <= '9'
                   || path[i] in {'-', '.', '_', '/', ':', '\\'}
  {
    if !AllSafe(path) {
      var k :| 0 <= k < |path| && !IsSafe(path[k]);
      BodyLength(path);
      assert |Escape(path)| > |path|;
    }
  }

  lemma {:induction false} BodyLength(s: string)
    ensures |QuoteBody(s)| >= |s|
  {
    if s != [] {
      BodyLength(s[1..]);
    }
  }

  /** An unquoted backslash is eaten. */
  lemma BackslashLost()
    ensures Words(Join(["a\\b"])) == Some(["ab"])
  {
    var t := "a\\b";
    assert Join([t]) == t;
    assert t[1..] == "\\b";
    assert "\\b"[2..] == "";
    assert "a" + ['b'] == "ab";
    assert Grow(None, 'a') == Some("a") && Grow(Some("a"), 'b') == Some("ab");
    assert Scan(t, None) == Scan("\\b", Some("a")) == Scan("", Some("ab"));
  }

  /** The pasted text, appended piece by piece. */
  method BracketedText(paths: seq<string>) returns (output: string)
    ensures output == PASTE_START + Join(paths) + PASTE_END
    ensures Words(output[|PASTE_START|..|output| - |PASTE_END|]) == Some(paths) <==> AllFaithful(paths)
  {
    var value := Join(paths);
    output := PASTE_START;
    output := output + value;
    output := output + PASTE_END;
    assert output[|PASTE_START|..|output| - |PASTE_END|] == value;
    JoinSplitsIff(paths);
  }
}
