/** Rule selection (internal/config/rules.go) and settings (internal/config/settings.go). The glob
    matcher is a parameter; a pattern error counts as no match. */
module Rules {
  import opened Text

  datatype Rule = Rule(name: string, alwaysCheck: bool, globs: seq<string>, body: string)

  type Glob = (string, string) -> bool

  ghost predicate Selects(glob: Glob, rule: Rule, changed: seq<string>) {
    rule.alwaysCheck || rule.globs == [] || exists f, g :: f in changed && g in rule.globs && glob(g, f)
  }

  method Matches(glob: Glob, rule: Rule, changed: seq<string>) returns (r: bool)
    ensures r <==> Selects(glob, rule, changed)
  {
    if rule.alwaysCheck || |rule.globs| == 0 {
      return true;
    }
    for i := 0 to |changed|
      invariant forall j, g :: 0 <= j < i && g in rule.globs ==> !glob(g, changed[j])
    {
      for k := 0 to |rule.globs|
        invariant forall j :: 0 <= j < k ==> !glob(rule.globs[j], changed[i])
      {
        if glob(rule.globs[k], changed[i]) {
          return true;
        }
      }
    }
    return false;
  }

  ghost function Selected(glob: Glob, rules: seq<Rule>, changed: seq<string>): seq<Rule> {
    if rules == [] then []
    else
      var last := rules[|rules| - 1];
      Selected(glob, rules[..|rules| - 1], changed) + (if Selects(glob, last, changed) then [last] else [])
  }

  method MatchRules(glob: Glob, rules: seq<Rule>, changed: seq<string>) returns (matched: seq<Rule>)
    ensures matched == Selected(glob, rules, changed)
  {
    matched := [];
    for i := 0 to |rules|
      invariant matched == Selected(glob, rules[..i], changed)
    {
      assert rules[..i + 1][..i] == rules[..i];
      var m := Matches(glob, rules[i], changed);
      if m {
        matched := matched + [rules[i]];
      }
    }
    assert rules[..|rules|] == rules;
  }

  lemma {:induction false} SelectedMeaning(glob: Glob, rules: seq<Rule>, changed: seq<string>)
    ensures forall r :: r in Selected(glob, rules, changed) <==> r in rules && Selects(glob, r, changed)
    ensures forall r :: r in Selected(glob, rules, changed) <==>
              && r in rules
              && (r.alwaysCheck || r.globs == []
                  || exists i, k :: 0 <= i < |changed| && 0 <= k < |r.globs| && glob(r.globs[k], changed[i]))
  {
    if rules == [] {
    } else {
      SelectedMeaning(glob, rules[..|rules| - 1], changed);
      assert rules == rules[..|rules| - 1] + [rules[|rules| - 1]];
    }
  }

  /** Selection keeps the order: it works part by part. */
  lemma {:induction false} SelectedAppend(glob: Glob, a: seq<Rule>, b: seq<Rule>, changed: seq<string>)
    ensures Selected(glob, a + b, changed) == Selected(glob, a, changed) + Selected(glob, b, changed)
  {
    if b == [] {
      assert a + b == a;
    } else {
      assert (a + b)[..|a + b| - 1] == a + b[..|b| - 1];
      SelectedAppend(glob, a, b[..|b| - 1], changed);
    }
  }

  const DEFAULT_MAX_CONCURRENT_AGENTS := 4

  /** settings.json: absent, unreadable, not JSON of the right shape, or the value of
      maxConcurrentAgents if the key is there. */
  datatype SettingsFile = Absent | Unreadable | Malformed | Parsed(maxConcurrentAgents: Option<int>)

  /** Whatever the file says, the limit handed to the fan-out is at least 1. */
  method LoadSettings(file: SettingsFile) returns (r: Result<int, string>)
    ensures r == SettingsOf(file)
    ensures r.Ok? ==> r.value >= 1
    ensures r.Err? <==>
              || file.Unreadable? || file.Malformed?
              || (file.Parsed? && file.maxConcurrentAgents.Some? && file.maxConcurrentAgents.value < 0)
  {
    match file
    case Absent => return Ok(DEFAULT_MAX_CONCURRENT_AGENTS);
    case Unreadable => return Err("unreadable");
    case Malformed => return Err("malformed");
    case Parsed(raw) =>
      var limit := DEFAULT_MAX_CONCURRENT_AGENTS;
      if raw.Some? {
        if raw.value < 0 {
          return Err("negative");
        } else if raw.value > 0 {
          limit := raw.value;
        }
      }
      return Ok(limit);
  }

  function SettingsOf(file: SettingsFile): Result<int, string> {
    match file
    case Absent => Ok(DEFAULT_MAX_CONCURRENT_AGENTS)
    case Unreadable => Err("unreadable")
    case Malformed => Err("malformed")
    case Parsed(None) => Ok(DEFAULT_MAX_CONCURRENT_AGENTS)
    case Parsed(Some(n)) =>
      if n < 0 then Err("negative")
      else if n == 0 then Ok(DEFAULT_MAX_CONCURRENT_AGENTS)
      else Ok(n)
  }

  /** The limit, value by value. */
  lemma SettingsMeaning(file: SettingsFile, n: int)
    ensures SettingsOf(Absent) == Ok(4) && SettingsOf(Parsed(None)) == Ok(4) && SettingsOf(Parsed(Some(0))) == Ok(4)
    ensures n > 0 ==> SettingsOf(Parsed(Some(n))) == Ok(n)
    ensures SettingsOf(file) == Err("unreadable") <==> file == Unreadable
    ensures SettingsOf(file) == Err("malformed") <==> file == Malformed
    ensures SettingsOf(file) == Err("negative") <==> exists m :: m < 0 && file == Parsed(Some(m))
    ensures SettingsOf(file).Err? ==> SettingsOf(file).error in {"unreadable", "malformed", "negative"}
  {
    if file.Parsed? && file.maxConcurrentAgents.Some? {
      assert file == Parsed(Some(file.maxConcurrentAgents.value));
    }
    assert "unreadable"[0] == 'u' && "malformed"[0] == 'm' && "negative"[0] == 'n';
  }
}
