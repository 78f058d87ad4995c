/** The environment file of the node service: written by the installer, read by the service manager. */
module ServiceEnvironment {
  import opened Prelude
  import opened Texts
  import NameOrder

  // Names are spelled in short pieces: a fact about every character of a literal (that none is `=`, say) costs
  // the verifier more than proportionally to the literal's length.

  const OBSERVER := "SNOWCAT_" + "COCKPIT_" + "OBSERVER_" + "ENV"
  const WORKER := "SNOWCAT_" + "COCKPIT_" + "WORKER_" + "ENV"

  const ALLOWLIST: seq<string> := [
    "PATH",
    "XDG_" + "CONFIG_" + "HOME",
    "XDG_" + "RUNTIME_" + "DIR",
    "CODEX_" + "HOME",
    "CLAUDE_" + "CONFIG_" + "DIR",
    "COPILOT_" + "HOME",
    "GH_" + "CONFIG_" + "DIR",
    "SNOWCAT_" + "COCKPIT_" + "OCI_" + "IMAGE",
    "SNOWCAT_" + "COCKPIT_" + "OCI_" + "CODEX_" + "IMAGE",
    "SNOWCAT_" + "COCKPIT_" + "OCI_" + "CLAUDE_" + "IMAGE",
    "SNOWCAT_" + "COCKPIT_" + "OCI_" + "COPILOT_" + "IMAGE",
    "SNOWCAT_" + "COCKPIT_" + "DOCKER_" + "CODEX_" + "IMAGE",
    "SNOWCAT_" + "COCKPIT_" + "DOCKER_" + "CLAUDE_" + "IMAGE",
    "SNOWCAT_" + "COCKPIT_" + "DOCKER_" + "COPILOT_" + "IMAGE",
    "SNOWCAT_" + "COCKPIT_" + "DOCKER_" + "ADD_" + "HOST"]

  predicate IsControl(c: char) { c < ' ' || c == '\U{7F}' }

  predicate HasControl(s: string) { exists c <- s :: IsControl(c) }

  /** Inside double quotes these mean themselves only after a backslash. */
  predicate NeedsEscape(c: char) { c == '\\' || c == '"' || c == '$' || c == '`' }

  function Escape(s: string): string {
    if s == "" then "" else (if NeedsEscape(s[0]) then ['\\', s[0]] else [s[0]]) + Escape(s[1..])
  }

  function Quoted(s: string): string { "\"" + Escape(s) + "\"" }

  function Line(name: string, value: string): string { name + "=" + Quoted(value) + "\n" }

  /** The file's text: one line per name, in the given order. */
  function Text(names: seq<string>, values: map<string, string>): string
    requires forall n <- names :: n in values
    decreases |names|
  {
    if names == [] then ""
    else
      assert Last(names) in names;
      Text(Front(names), values) + Line(Last(names), values[Last(names)])
  }

  /** The two credential paths and the allowlisted values that are not empty. */
  function Values(observer: string, worker: string, environment: map<string, string>): map<string, string> {
    map name | name in {OBSERVER, WORKER} + (set n | n in ALLOWLIST)
      && (name in ALLOWLIST ==> name in environment && environment[name] != "") ::
      if name in ALLOWLIST then environment[name] else if name == OBSERVER then observer else worker
  }

  // ---- Writing ---------------------------------------------------------------------------------

  method RejectControls(value: string) returns (ok: bool)
    ensures ok <==> !HasControl(value)
    ensures ok <==> forall c <- value :: ' ' <= c && c != '\U{7F}'
  {
    for i := 0 to |value|
      invariant forall k | 0 <= k < i :: !IsControl(value[k])
    {
      if IsControl(value[i]) {
        assert value[i] in value;
        return false;
      }
    }
    ok := true;
  }

  method QuoteEnvironmentValue(value: string) returns (r: Option<string>)
    ensures r == if HasControl(value) then None else Some(Quoted(value))
    ensures r.None? <==> exists c <- value :: c < ' ' || c == '\U{7F}'
  {
    var ok := RejectControls(value);
    if !ok {
      return None;
    }
    var escaped := "";
    for i := |value| downto 0
      invariant escaped == Escape(value[i..])
    {
      assert value[i..][1..] == value[i + 1..];
      escaped := (if NeedsEscape(value[i]) then ['\\', value[i]] else [value[i]]) + escaped;
    }
    r := Some("\"" + escaped + "\"");
  }

  method CollectValues(observer: string, worker: string, environment: map<string, string>)
    returns (values: map<string, string>)
    ensures values == Values(observer, worker, environment)
  {
    CredentialNamesAreNotListed();
    var credentials := map[OBSERVER := observer, WORKER := worker];
    values := AddListed(credentials, ALLOWLIST, environment);
  }

  /** Add every listed name the environment gives a value. */
  method AddListed(before: map<string, string>, listed: seq<string>, environment: map<string, string>)
    returns (values: map<string, string>)
    requires forall n <- listed :: n !in before
    ensures forall n :: n in values <==> n in before || (n in listed && n in environment && environment[n] != "")
    ensures forall n <- values :: values[n] == if n in listed then environment[n] else before[n]
  {
    values := before;
    for i := 0 to |listed|
      invariant forall n :: n in values <==> n in before || (n in listed[..i] && n in environment
                                                             && environment[n] != "")
      invariant forall n <- values :: values[n] == if n in listed then environment[n] else before[n]
    {
      var name := listed[i];
      assert listed[..i + 1] == listed[..i] + [name];
      if name in environment && environment[name] != "" {
        values := values[name := environment[name]];
      }
    }
    assert listed[..|listed|] == listed;
  }

  /** The text of these values: their lines in ascending order of names. */
  ghost predicate IsTextOf(values: map<string, string>, text: string) {
    exists names: seq<string> :: NameOrder.Ascending(names) && NameOrder.SameMembers(names, values.Keys)
      && text == Text(names, values)
  }

  /** The whole file, or a refusal exactly when a value holds a control character. */
  method RenderEnvironment(observer: string, worker: string, environment: map<string, string>)
    returns (r: Option<string>)
    ensures var values := Values(observer, worker, environment);
            && (r.None? <==> exists n <- values :: HasControl(values[n]))
            && (r.Some? ==> IsTextOf(values, r.value))
  {
    hide Values;
    var values := CollectValues(observer, worker, environment);
    r := RenderValues(values);
  }

  method RenderValues(values: map<string, string>) returns (r: Option<string>)
    ensures r.None? <==> exists n <- values :: HasControl(values[n])
    ensures r.Some? ==> IsTextOf(values, r.value)
  {
    hide NameOrder.Ascending, HasControl;
    var names := NameOrder.Sorted(values.Keys);
    var output := "";
    for i := 0 to |names|
      invariant forall k | 0 <= k < i :: !HasControl(values[names[k]])
      invariant output == Text(names[..i], values)
    {
      assert names[i] in names;
      var quoted := QuoteEnvironmentValue(values[names[i]]);
      if quoted.None? {
        return None;
      }
      assert Front(names[..i + 1]) == names[..i];
      output := output + (names[i] + "=" + quoted.value + "\n");
    }
    assert names[..|names|] == names;
    forall n <- values ensures !HasControl(values[n]) {
      assert n in names;
    }
    r := Some(output);
  }

  lemma CredentialNamesAreNotListed()
    ensures OBSERVER !in ALLOWLIST && WORKER !in ALLOWLIST && OBSERVER != WORKER
  {
    assert |OBSERVER| == 28 && |WORKER| == 26;
    forall i | 0 <= i < |ALLOWLIST| ensures |ALLOWLIST[i]| != 28 && |ALLOWLIST[i]| != 26 {
    }
  }

  // ---- Reading: the double-quote rules of systemd's environment files ---------------------------------

  // A bare `$` or backtick, which a shell would expand, is not read at all.

  datatype Entry = Entry(name: string, value: string)

  /** The value up to the closing quote, and what follows it. */
  function Unquote(s: string, value: string): Option<(string, string)>
    decreases |s|
  {
    if s == "" then None
    else if s[0] == '"' then Some((value, s[1..]))
    else if s[0] == '\\' then
      if |s| == 1 then None
      else if s[1] == '\\' || s[1] == '"' || s[1] == '$' || s[1] == '`' then Unquote(s[2..], value + [s[1]])
      else if s[1] == '\n' then Unquote(s[2..], value)
      else Unquote(s[2..], value + ['\\', s[1]])
    else if s[0] == '$' || s[0] == '`' then None
    else Unquote(s[1..], value + [s[0]])
  }

  lemma {:induction false} UnquoteConsumes(s: string, value: string)
    ensures Unquote(s, value).Some? ==> |Unquote(s, value).value.1| < |s|
    decreases |s|
  {
    if s != "" && s[0] != '"' {
      if s[0] != '\\' {
        UnquoteConsumes(s[1..], value + [s[0]]);
      } else if |s| > 1 {
        UnquoteConsumes(s[2..], value + [s[1]]);
        UnquoteConsumes(s[2..], value);
        UnquoteConsumes(s[2..], value + ['\\', s[1]]);
      }
    }
  }

  /** The assignments of a file whose values are all double-quoted; anything else is not read. */
  function Read(s: string): Option<seq<Entry>>
    decreases |s|
  {
    if s == "" then Some([])
    else
      var i := IndexOf(s, '=');
      if i + 1 >= |s| || s[i + 1] != '"' then None
      else
        UnquoteConsumes(s[i + 2..], "");
        var u := Unquote(s[i + 2..], "");
        if u.None? || u.value.1 == "" || u.value.1[0] != '\n' then None
        else
          var rest := Read(u.value.1[1..]);
          if rest.None? then None else Some([Entry(s[..i], u.value.0)] + rest.value)
  }

  lemma {:induction false} UnquoteUndoesEscape(v: string, rest: string, value: string)
    ensures Unquote(Escape(v) + "\"" + rest, value) == Some((value + v, rest))
    decreases |v|
  {
    var s := Escape(v) + "\"" + rest;
    if v == "" {
      assert s[1..] == rest && value + v == value;
    } else {
      UnquoteUndoesEscape(v[1..], rest, value + [v[0]]);
      var tail := Escape(v[1..]) + "\"" + rest;
      assert value + [v[0]] + v[1..] == value + v;
      if NeedsEscape(v[0]) {
        assert s == ['\\', v[0]] + tail && s[2..] == tail;
      } else {
        assert s == [v[0]] + tail && s[1..] == tail;
      }
    }
  }

  lemma LineReadsBack(name: string, value: string, rest: string)
    requires '=' !in name
    ensures Read(Line(name, value) + rest) == (var r := Read(rest); if r.None? then None
                                               else Some([Entry(name, value)] + r.value))
  {
    var s := Line(name, value) + rest;
    var tail := "\"" + Escape(value) + "\"" + "\n" + rest;
    assert s == name + "=" + tail;
    IndexAfter(name, '=', tail);
    assert s[..|name|] == name && s[|name| + 1] == '"';
    assert s[|name| + 2..] == Escape(value) + "\"" + ("\n" + rest);
    UnquoteUndoesEscape(value, "\n" + rest, "");
    assert "" + value == value && ("\n" + rest)[1..] == rest;
  }

  function Entries(names: seq<string>, values: map<string, string>): seq<Entry>
    requires forall n <- names :: n in values
  {
    seq(|names|, i requires 0 <= i < |names| => Entry(names[i], values[names[i]]))
  }

  lemma {:induction false} TextReadsOn(names: seq<string>, values: map<string, string>, rest: string)
    requires forall n <- names :: n in values && '=' !in n
    ensures Read(Text(names, values) + rest)
            == (var r := Read(rest); if r.None? then None else Some(Entries(names, values) + r.value))
    decreases |names|
  {
    hide Read, Line;
    if names == [] {
      assert "" + rest == rest;
      assert forall x: seq<Entry> :: Entries(names, values) + x == x;
    } else {
      var name := Last(names);
      assert name in names;
      assert Text(names, values) + rest == Text(Front(names), values) + (Line(name, values[name]) + rest);
      TextReadsOn(Front(names), values, Line(name, values[name]) + rest);
      LineReadsBack(name, values[name], rest);
      assert Entries(names, values) == Entries(Front(names), values) + [Entry(name, values[name])];
      assert forall x: seq<Entry> :: Entries(Front(names), values)
                                     + ([Entry(name, values[name])] + x) == Entries(names, values) + x;
    }
  }

  lemma NamesHoldNoEquals()
    ensures '=' !in OBSERVER && '=' !in WORKER && forall n <- ALLOWLIST :: '=' !in n
  {
    assert '=' !in "SNOWCAT_" && '=' !in "COCKPIT_" && '=' !in "OCI_" && '=' !in "DOCKER_" && '=' !in "IMAGE"
           && '=' !in "HOME";
    assert '=' !in "CODEX_" && '=' !in "CLAUDE_" && '=' !in "COPILOT_" && '=' !in "CONFIG_" && '=' !in "DIR"
           && '=' !in "ADD_";
    forall i | 0 <= i < |ALLOWLIST| ensures '=' !in ALLOWLIST[i] {
    }
  }

  /**
   For all values, whatever they hold: the file reads back as exactly one entry per name, in ascending
   order.
   */
  lemma TextReadsBack(values: map<string, string>, names: seq<string>)
    requires NameOrder.Ascending(names) && NameOrder.SameMembers(names, values.Keys)
    requires forall n <- values :: '=' !in n
    ensures Read(Text(names, values)) == Some(Entries(names, values))
    ensures forall n, v :: Entry(n, v) in Entries(names, values) <==> n in values && values[n] == v
  {
    TextReadsOn(names, values, "");
    assert Text(names, values) + "" == Text(names, values) && Entries(names, values) + [] == Entries(names, values);
    hide Read, Text;
    forall n, v ensures Entry(n, v) in Entries(names, values) <==> n in values && values[n] == v {
      if n in values && values[n] == v {
        assert n in names;
        var i :| 0 <= i < |names| && names[i] == n;
        assert Entries(names, values)[i] == Entry(n, v);
      }
    }
  }

  /** The values are exactly the two credential paths and the non-empty allowlisted ones. */
  lemma ValuesAre(observer: string, worker: string, environment: map<string, string>)
    ensures var values := Values(observer, worker, environment);
            && OBSERVER in values && WORKER in values && values[OBSERVER] == observer && values[WORKER] == worker
            && (forall n :: n in values && n != OBSERVER && n != WORKER <==>
                  n in ALLOWLIST && n in environment
                  && environment[n] != "")
            && (forall n <- values :: n != OBSERVER && n != WORKER ==> values[n] == environment[n])
            && (forall n <- values :: '=' !in n)
  {
    CredentialNamesAreNotListed();
    NamesHoldNoEquals();
  }

  /** So the rendered file reads back as exactly the credential paths and the allowlisted values. */
  lemma FileReadsBack(observer: string, worker: string, environment: map<string, string>, text: string)
    requires IsTextOf(Values(observer, worker, environment), text)
    ensures var values := Values(observer, worker, environment);
            var read := Read(text);
            read.Some? && forall n, v :: Entry(n, v) in read.value <==> n in values && values[n] == v
  {
    hide Read, Text, Values, Entries;
    var values := Values(observer, worker, environment);
    ValuesAre(observer, worker, environment);
    var names: seq<string> :| NameOrder.Ascending(names) && NameOrder.SameMembers(names, values.Keys)
      && text == Text(names, values);
    TextReadsBack(values, names);
  }

  /** Whoever renders the same values writes the same text. */
  lemma TextIsDetermined(values: map<string, string>, text: string, text': string)
    requires IsTextOf(values, text) && IsTextOf(values, text')
    ensures text == text'
  {
    hide Text;
    var names: seq<string> :| NameOrder.Ascending(names) && NameOrder.SameMembers(names, values.Keys)
      && text == Text(names, values);
    var names': seq<string> :| NameOrder.Ascending(names') && NameOrder.SameMembers(names', values.Keys)
      && text' == Text(names', values);
    NameOrder.AscendingIsUnique(names, names');
  }
}
