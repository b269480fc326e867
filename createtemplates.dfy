/** The helpers that turn the project's Makefile rules into GNS3 docker templates
    (`src/create_templates.py`): the template name sanitiser, the first rule
    naming a target, the environment text built from a `config` dictionary, the
    `--tag` scanner over a target's recipes and the image name defaulting. */
module CreateTemplates {
  import opened PyErrors
  import opened PyStr

  // ---------------------------------------------------------------- clean_name

  /** The characters `clean_name` keeps: ASCII letters, digits and `.`. */
  predicate Allowed(c: char)
  {
    ('a' <= c <= 'z') || ('A' <= c <= 'Z') || ('0' <= c <= '9') || c == '.'
  }

  /** `clean_name(name)`: every character that is not an ASCII letter, a digit or
      `.` becomes `-`, in place. */
  function CleanName(name: string): (r: string)
    ensures |r| == |name|
    ensures forall i :: 0 <= i < |name| && Allowed(name[i]) ==> r[i] == name[i]
    ensures forall i :: 0 <= i < |name| && !Allowed(name[i]) ==> r[i] == '-'
  {
    seq(|name|, i requires 0 <= i < |name| => if Allowed(name[i]) then name[i] else '-')
  }

  /** A cleaned name holds only letters, digits, `.` and `-`. */
  lemma CleanNameAlphabet(name: string)
    ensures forall c :: c in CleanName(name) ==> Allowed(c) || c == '-'
  {
    var r := CleanName(name);
    forall c | c in r
      ensures Allowed(c) || c == '-'
    {
      var i :| 0 <= i < |r| && r[i] == c;
    }
  }

  /** Cleaning a cleaned name changes nothing. */
  lemma CleanNameIdempotent(name: string)
    ensures CleanName(CleanName(name)) == CleanName(name)
  {
    var r := CleanName(name);
    assert forall i :: 0 <= i < |r| ==> CleanName(r)[i] == r[i];
  }

  /** A name made only of allowed characters is its own clean name. */
  lemma CleanNameKeepsAllowed(name: string)
    requires forall c :: c in name ==> Allowed(c)
    ensures CleanName(name) == name
  {
    assert forall i :: 0 <= i < |name| ==> name[i] in name;
  }

  // -------------------------------------------------- get_make_rule_by_target_name

  /** A rule of the project's Makefile. */
  datatype MakeRule = MakeRule(targets: seq<string>, prerequisites: seq<string>, recipes: seq<string>)

  /** The index of the first rule whose targets hold `target`, or `|rules|`. */
  function FirstRuleIndex(rules: seq<MakeRule>, target: string): (k: nat)
    ensures k <= |rules|
    ensures forall j :: 0 <= j < k ==> target !in rules[j].targets
    ensures k < |rules| ==> target in rules[k].targets
  {
    if |rules| == 0 then 0
    else if target in rules[0].targets then 0
    else 1 + FirstRuleIndex(rules[1..], target)
  }

  /** `get_make_rule_by_target_name(rules, target)`: `next` over the rules that
      name the target, so the first such rule, or StopIteration when there is none. */
  function GetMakeRuleByTargetName(rules: seq<MakeRule>, target: string): (r: Result<MakeRule>)
    ensures r.Err? <==> forall j :: 0 <= j < |rules| ==> target !in rules[j].targets
    ensures r.Err? ==> r.error == StopIteration
    ensures r.Ok? ==> exists k :: && 0 <= k < |rules| && rules[k] == r.value && target in r.value.targets
                                  && forall j :: 0 <= j < k ==> target !in rules[j].targets
  {
    var k := FirstRuleIndex(rules, target);
    if k < |rules| then Ok(rules[k]) else Err(StopIteration)
  }

  // ------------------------------------------------------------ dict_to_env_str

  /** The `k=v` entries of a dictionary's items, in the dictionary's order. Values
      are given as the text `str` renders them as. */
  function EnvEntries(items: seq<(string, string)>): (r: seq<string>)
    ensures |r| == |items|
    ensures forall i :: 0 <= i < |items| ==> r[i] == items[i].0 + "=" + items[i].1
  {
    seq(|items|, i requires 0 <= i < |items| => items[i].0 + "=" + items[i].1)
  }

  /** `dict_to_env_str(env)`: the entries appended one by one, then joined with
      newlines. */
  method DictToEnvStr(items: seq<(string, string)>) returns (s: string)
    ensures s == Join(EnvEntries(items), '\n')
  {
    var res: seq<string> := [];
    var i := 0;
    while i < |items|
      invariant 0 <= i <= |items|
      invariant res == EnvEntries(items[..i])
    {
      var (k, v) := items[i];
      res := res + [k + "=" + v];
      i := i + 1;
    }
    assert items[..i] == items;
    s := Join(res, '\n');
  }

  /** An empty dictionary gives the empty text. */
  lemma EmptyEnvStr()
    ensures Join(EnvEntries([]), '\n') == ""
  {
  }

  /** The environment text read back: splitting it at newlines gives one line per
      item, and cutting a line at its first `=` gives the key and the value back,
      provided no key holds `=` and no key or value holds a newline. */
  lemma EnvStrRoundTrip(items: seq<(string, string)>)
    requires |items| > 0
    requires forall i :: 0 <= i < |items| ==> '=' !in items[i].0 && '\n' !in items[i].0 && '\n' !in items[i].1
    ensures var lines := Split(Join(EnvEntries(items), '\n'), '\n');
            && |lines| == |items|
            && forall i :: 0 <= i < |items| ==> && Find(lines[i], '=') < |lines[i]|
                                                && lines[i][..Find(lines[i], '=')] == items[i].0
                                                && lines[i][Find(lines[i], '=') + 1..] == items[i].1
  {
    var entries := EnvEntries(items);
    forall i | 0 <= i < |entries|
      ensures '\n' !in entries[i]
    {
      EntryParts(items[i].0, items[i].1);
    }
    SplitJoin(entries, '\n');
    forall i | 0 <= i < |items|
      ensures entries[i][..Find(entries[i], '=')] == items[i].0
      ensures entries[i][Find(entries[i], '=') + 1..] == items[i].1
    {
      EntryParts(items[i].0, items[i].1);
    }
  }

  /** One entry: its first `=` sits right after the key. */
  lemma EntryParts(k: string, v: string)
    requires '=' !in k
    ensures var e := k + "=" + v;
            && Find(e, '=') == |k| && e[..|k|] == k && e[|k| + 1..] == v
    ensures '\n' !in k && '\n' !in v ==> '\n' !in k + "=" + v
  {
    var e := k + "=" + v;
    assert forall i :: 0 <= i < |k| ==> e[i] == k[i];
    FindFirst(e, '=', |k|);
    assert e[..|k|] == k;
    assert e[|k| + 1..] == v;
    if '\n' !in k && '\n' !in v {
      assert forall c :: c in e ==> c in k || c == '=' || c in v;
    }
  }

  /** `Find` gives the first position holding the character. */
  lemma FindFirst(s: string, c: char, k: nat)
    requires k < |s| && s[k] == c
    requires forall i :: 0 <= i < k ==> s[i] != c
    ensures Find(s, c) == k
  {
    var f := Find(s, c);
    assert !(f < k);
  }

  // -------------------------------------------------------------- the tag scanner

  /** Number of characters other than a space from `s[i]` on: what `[^ ]+` can take. */
  function NonBlanks(s: string, i: nat): (n: nat)
    requires i <= |s|
    ensures i + n <= |s|
    ensures forall k :: i <= k < i + n ==> s[k] != ' '
    ensures i + n < |s| ==> s[i + n] == ' '
    decreases |s| - i
  {
    if i < |s| && s[i] != ' ' then 1 + NonBlanks(s, i + 1) else 0
  }

  /** Number of whitespace characters from `s[i]` on: what `\s+` can take at most. */
  function Spaces(s: string, i: nat): (n: nat)
    requires i <= |s|
    ensures i + n <= |s|
    ensures forall k :: i <= k < i + n ==> IsSpace(s[k])
    ensures i + n < |s| ==> !IsSpace(s[i + n])
    decreases |s| - i
  {
    if i < |s| && IsSpace(s[i]) then 1 + Spaces(s, i + 1) else 0
  }

  /** The longest length `1 <= l <= w` for `\s+` after which `[^ ]+` can take a
      character, or 0 when there is none: the backtracking of the greedy `\s+`. */
  function SpaceCut(s: string, start: nat, w: nat): (l: nat)
    requires start + w <= |s|
    ensures l <= w
    ensures l > 0 ==> start + l < |s| && s[start + l] != ' '
    ensures forall k :: start + l < k <= start + w && k < |s| ==> s[k] == ' '
  {
    if w == 0 then 0
    else if start + w < |s| && s[start + w] != ' ' then w
    else SpaceCut(s, start, w - 1)
  }

  /** The group of `--tag\s+([^ ]+)` when the match starts at `s[p]`. */
  function TagAt(s: string, p: nat): Option<string>
    requires p <= |s|
  {
    if p + 5 <= |s| && s[p..p + 5] == "--tag" then
      var start := p + 5;
      var l := SpaceCut(s, start, Spaces(s, start));
      if l == 0 then None
      else Some(s[start + l..start + l + NonBlanks(s, start + l)])
    else None
  }

  /** `re.search(r"--tag\s+([^ ]+)", s)` from position `p` on: the group of the
      leftmost match, or None. */
  function SearchTag(s: string, p: nat): (g: Option<string>)
    requires p <= |s|
    ensures g.Some? ==> exists q :: && p <= q <= |s| && TagAt(s, q) == g
                                    && forall j :: p <= j < q ==> TagAt(s, j).None?
    ensures g.None? ==> forall q :: p <= q <= |s| ==> TagAt(s, q).None?
    decreases |s| - p
  {
    var here := TagAt(s, p);
    if here.Some? then here
    else if p == |s| then None
    else
      var g := SearchTag(s, p + 1);
      assert g.Some? ==> exists q :: && p <= q <= |s| && TagAt(s, q) == g
                                     && forall j :: p <= j < q ==> TagAt(s, j).None? by {
        if g.Some? {
          var q :| && p + 1 <= q <= |s| && TagAt(s, q) == g
                   && forall j :: p + 1 <= j < q ==> TagAt(s, j).None?;
          assert forall j :: p <= j < q ==> TagAt(s, j).None?;
        }
      }
      g
  }

  /** Where the group of a match at `q` starts. */
  function GroupStart(s: string, q: nat): nat
    requires q + 5 <= |s|
  {
    q + 5 + SpaceCut(s, q + 5, Spaces(s, q + 5))
  }

  /** A match found at `q` is `--tag`, at least one whitespace character, and a
      non-empty group free of spaces that runs up to a space or the end. */
  lemma TagShape(s: string, q: nat)
    requires q <= |s| && TagAt(s, q).Some?
    ensures var g := TagAt(s, q).value;
            && q + 5 <= |s| && s[q..q + 5] == "--tag"
            && var b := GroupStart(s, q);
            && q + 5 < b && b + |g| <= |s|
            && (forall k :: q + 5 <= k < b ==> IsSpace(s[k]))
            && s[b..b + |g|] == g && |g| > 0 && ' ' !in g
            && (b + |g| == |s| || s[b + |g|] == ' ')
  {
    var b := GroupStart(s, q);
    var g := TagAt(s, q).value;
    assert g == s[b..b + NonBlanks(s, b)];
    assert forall k :: 0 <= k < |g| ==> g[k] == s[b + k];
  }

  /** A recipe written `... --tag T ...` with no `-` before the option yields `T`
      when `T` is non-empty, holds no whitespace and is followed by a space or the
      end. */
  lemma TagOfRecipe(before: string, tag: string, after: string)
    requires '-' !in before
    requires |tag| > 0 && forall c :: c in tag ==> !IsSpace(c)
    requires after == "" || after[0] == ' '
    ensures SearchTag(before + "--tag " + tag + after, 0) == Some(tag)
  {
    var s := before + "--tag " + tag + after;
    var p := |before|;
    assert s[p..p + 5] == "--tag";
    var start := p + 5;
    assert s[start] == ' ';
    assert s[start + 1] == tag[0];
    assert tag[0] in tag;
    assert Spaces(s, start + 1) == 0;
    assert Spaces(s, start) == 1;
    assert SpaceCut(s, start, 1) == 1;
    var n := NonBlanks(s, start + 1);
    forall k | 0 <= k < |tag|
      ensures s[start + 1 + k] == tag[k] && s[start + 1 + k] != ' '
    {
      assert tag[k] in tag;
    }
    assert after != "" ==> s[start + 1 + |tag|] == after[0];
    assert s[start + 1..start + 1 + n] == tag;
    assert TagAt(s, p) == Some(tag);
    NoTagBefore(s, before, 0);
  }

  /** No match starts inside a prefix free of `-`. */
  lemma {:induction false} NoTagBefore(s: string, before: string, q: nat)
    requires before <= s && '-' !in before && q <= |before| && |before| + 6 <= |s|
    requires TagAt(s, |before|).Some?
    ensures SearchTag(s, q) == TagAt(s, |before|)
    decreases |before| - q
  {
    if q < |before| {
      assert s[q] == before[q];
      assert before[q] in before;
      assert s[q..q + 5][0] == s[q];
      NoTagBefore(s, before, q + 1);
    }
  }

  // ------------------------------------------------------- one target's template

  /** The group of the tag pattern searched in one recipe. */
  function TagOf(recipe: string): Option<string>
  {
    SearchTag(recipe, 0)
  }

  /** The first item for which `search` finds something, with what it found. */
  function FirstFound(items: seq<string>, search: string -> Option<string>): (r: Option<(nat, string)>)
    ensures r.Some? ==> && r.value.0 < |items| && search(items[r.value.0]) == Some(r.value.1)
                        && forall j :: 0 <= j < r.value.0 ==> search(items[j]).None?
    ensures r.None? ==> forall j :: 0 <= j < |items| ==> search(items[j]).None?
  {
    if |items| == 0 then None
    else if search(items[0]).Some? then Some((0, search(items[0]).value))
    else
      var rest := FirstFound(items[1..], search);
      if rest.None? then None else Some((rest.value.0 + 1, rest.value.1))
  }

  /** The first recipe of a rule with a `--tag` match, and its group. */
  function FirstTag(recipes: seq<string>): Option<(nat, string)>
  {
    FirstFound(recipes, TagOf)
  }

  /** The recipe loop: the tag of the first recipe that matches (later recipes
      are not looked at), or RuntimeError when none does. */
  method DockerTag(target: string, recipes: seq<string>) returns (r: Result<string>)
    ensures FirstTag(recipes).None? ==> r == Err(RuntimeError(NoTagMessage(target)))
    ensures FirstTag(recipes).Some? ==> r == Ok(FirstTag(recipes).value.1)
  {
    r := FirstFoundLoop(recipes, TagOf, NoTagMessage(target));
  }

  /** The search loop, leaving at the first item for which `search` finds
      something. */
  method FirstFoundLoop(items: seq<string>, search: string -> Option<string>, message: string) returns (r: Result<string>)
    ensures FirstFound(items, search).None? ==> r == Err(RuntimeError(message))
    ensures FirstFound(items, search).Some? ==> r == Ok(FirstFound(items, search).value.1)
  {
    var i := 0;
    while i < |items|
      invariant 0 <= i <= |items|
      invariant forall j :: 0 <= j < i ==> search(items[j]).None?
    {
      var m := search(items[i]);
      if m.Some? {
        FirstFoundIs(items, search, i);
        return Ok(m.value);
      }
      i := i + 1;
    }
    r := Err(RuntimeError(message));
  }

  lemma FirstFoundIs(items: seq<string>, search: string -> Option<string>, k: nat)
    requires k < |items| && search(items[k]).Some?
    requires forall j :: 0 <= j < k ==> search(items[j]).None?
    ensures FirstFound(items, search) == Some((k, search(items[k]).value))
  {
    var f := FirstFound(items, search);
    assert f.Some? && !(f.value.0 < k) && !(k < f.value.0);
  }

  /** A found tag is non-empty and holds no space. */
  lemma FoundTagShape(recipes: seq<string>)
    requires FirstTag(recipes).Some?
    ensures |FirstTag(recipes).value.1| > 0 && ' ' !in FirstTag(recipes).value.1
  {
    var (i, g) := FirstTag(recipes).value;
    var q :| 0 <= q <= |recipes[i]| && TagAt(recipes[i], q) == Some(g);
    TagShape(recipes[i], q);
  }

  function NoTagMessage(target: string): string
  {
    "No docker tag found for the docker target " + target + "."
  }

  /** The image of a tag: the tag itself when it names a version (holds `:`),
      otherwise the tag's `latest` version. */
  function DockerImage(tag: string): (image: string)
    ensures ':' in image
    ensures ':' in tag ==> image == tag
    ensures ':' !in tag ==> image == tag + ":latest"
  {
    if ':' in tag then tag
    else
      var image := tag + ":latest";
      assert image[|tag|] == ':';
      image
  }

  /** Defaulting twice changes nothing more. */
  lemma DockerImageIdempotent(tag: string)
    ensures DockerImage(DockerImage(tag)) == DockerImage(tag)
  {
  }

  // ------------------------------------------------------------ the env_vars loop

  /** Whether a prerequisite is a Python file. */
  predicate IsPython(dep: string)
  {
    |dep| >= 3 && dep[|dep| - 3..] == ".py"
  }

  /** The Python prerequisites, in order. */
  function PythonDeps(depends: seq<string>): (r: seq<string>)
    ensures forall d :: d in r <==> d in depends && IsPython(d)
  {
    if |depends| == 0 then []
    else (if IsPython(depends[0]) then [depends[0]] else []) + PythonDeps(depends[1..])
  }

  /** Selecting the Python prerequisites keeps their order: the selection of two
      runs of prerequisites is the selection of the first then that of the second,
      and a single prerequisite is kept exactly when it is a Python file. */
  lemma {:induction false} PythonDepsAppend(a: seq<string>, b: seq<string>)
    ensures PythonDeps(a + b) == PythonDeps(a) + PythonDeps(b)
    ensures PythonDeps([]) == []
    ensures |a| == 1 ==> PythonDeps(a) == if IsPython(a[0]) then a else []
    decreases |a|
  {
    if |a| == 0 {
      assert a + b == b;
    } else {
      assert (a + b)[1..] == a[1..] + b;
      PythonDepsAppend(a[1..], b);
      if |a| == 1 {
        assert a[1..] == [];
      }
    }
  }

  /** The number of Python files looked at before `config` is found, and the
      file it is found in; `configOf(f)` is the `config` dictionary of file `f`,
      or None when reading it raises ValueError. */
  function FirstConfig(deps: seq<string>, configOf: string -> Option<seq<(string, string)>>): (k: nat)
    ensures k <= |deps|
    ensures forall j :: 0 <= j < k ==> configOf(deps[j]).None?
    ensures k < |deps| ==> configOf(deps[k]).Some?
  {
    if |deps| == 0 then 0
    else if configOf(deps[0]).Some? then 0
    else 1 + FirstConfig(deps[1..], configOf)
  }

  /** The loop over the Python prerequisites: `env_vars` is the environment text
      of the first file whose `config` is found, or the empty text; every file
      looked at, up to and including that one, is recorded as scanned. */
  method EnvVars(depends: seq<string>, configOf: string -> Option<seq<(string, string)>>)
    returns (envVars: string, scanned: seq<string>)
    ensures envVars == EnvText(depends, configOf)
    ensures var deps := PythonDeps(depends);
            var k := FirstConfig(deps, configOf);
            && (k < |deps| ==> envVars == Join(EnvEntries(configOf(deps[k]).value), '\n') && scanned == deps[..k + 1])
            && (k == |deps| ==> envVars == "" && scanned == deps)
  {
    envVars, scanned := ConfigSearch(PythonDeps(depends), configOf);
  }

  /** The environment text of the first Python prerequisite whose `config` is
      found, or the empty text. */
  function EnvText(depends: seq<string>, configOf: string -> Option<seq<(string, string)>>): string
  {
    var deps := PythonDeps(depends);
    var k := FirstConfig(deps, configOf);
    if k < |deps| then Join(EnvEntries(configOf(deps[k]).value), '\n') else ""
  }

  /** The Python prerequisites taken from a run whose Python files all lack a
      `config` lack one too. */
  lemma NoConfigSelected(run: seq<string>, configOf: string -> Option<seq<(string, string)>>)
    requires forall j :: 0 <= j < |run| && IsPython(run[j]) ==> configOf(run[j]).None?
    ensures forall j :: 0 <= j < |PythonDeps(run)| ==> configOf(PythonDeps(run)[j]).None?
  {
    var deps := PythonDeps(run);
    forall j | 0 <= j < |deps| ensures configOf(deps[j]).None? {
      assert deps[j] in deps;
      var k :| 0 <= k < |run| && run[k] == deps[j];
    }
  }

  /** The environment text comes from the first prerequisite, in `depends` order,
      that is a Python file whose `config` is found. */
  lemma EnvTextFromFirstConfig(depends: seq<string>, configOf: string -> Option<seq<(string, string)>>, i: nat)
    requires i < |depends| && IsPython(depends[i]) && configOf(depends[i]).Some?
    requires forall j :: 0 <= j < i && IsPython(depends[j]) ==> configOf(depends[j]).None?
    ensures EnvText(depends, configOf) == Join(EnvEntries(configOf(depends[i]).value), '\n')
  {
    var run := depends[..i];
    var before, after := PythonDeps(run), PythonDeps(depends[i + 1..]);
    assert depends == run + ([depends[i]] + depends[i + 1..]);
    PythonDepsAppend(run, [depends[i]] + depends[i + 1..]);
    PythonDepsAppend([depends[i]], depends[i + 1..]);
    var deps := PythonDeps(depends);
    assert deps == before + ([depends[i]] + after);
    assert forall j :: 0 <= j < |run| ==> run[j] == depends[j];
    NoConfigSelected(run, configOf);
    assert deps[|before|] == depends[i];
    assert forall j :: 0 <= j < |before| ==> deps[j] == before[j];
    FirstConfigIs(deps, configOf, |before|);
  }

  /** When no Python prerequisite has a `config`, the environment text is empty. */
  lemma EnvTextWithoutConfig(depends: seq<string>, configOf: string -> Option<seq<(string, string)>>)
    requires forall j :: 0 <= j < |depends| && IsPython(depends[j]) ==> configOf(depends[j]).None?
    ensures EnvText(depends, configOf) == ""
  {
    NoConfigSelected(depends, configOf);
    FirstConfigIs(PythonDeps(depends), configOf, |PythonDeps(depends)|);
  }

  /** The loop over the Python files, leaving at the first whose `config` is found. */
  method ConfigSearch(deps: seq<string>, configOf: string -> Option<seq<(string, string)>>)
    returns (envVars: string, scanned: seq<string>)
    ensures var k := FirstConfig(deps, configOf);
            && (k < |deps| ==> envVars == Join(EnvEntries(configOf(deps[k]).value), '\n') && scanned == deps[..k + 1])
            && (k == |deps| ==> envVars == "" && scanned == deps)
  {
    envVars := "";
    scanned := [];
    var i := 0;
    while i < |deps|
      invariant 0 <= i <= |deps|
      invariant scanned == deps[..i]
      invariant forall j :: 0 <= j < i ==> configOf(deps[j]).None?
    {
      scanned := scanned + [deps[i]];
      var config := configOf(deps[i]);
      if config.Some? {
        envVars := DictToEnvStr(config.value);
        FirstConfigIs(deps, configOf, i);
        return;
      }
      i := i + 1;
    }
    assert deps[..i] == deps;
    FirstConfigIs(deps, configOf, i);
  }

  lemma FirstConfigIs(deps: seq<string>, configOf: string -> Option<seq<(string, string)>>, k: nat)
    requires k <= |deps|
    requires forall j :: 0 <= j < k ==> configOf(deps[j]).None?
    requires k < |deps| ==> configOf(deps[k]).Some?
    ensures FirstConfig(deps, configOf) == k
  {
    var f := FirstConfig(deps, configOf);
    assert !(f < k) && !(k < f);
  }

  /** The GNS3 docker template made for one target. */
  datatype DockerTemplate = DockerTemplate(name: string, image: string, environment: string)

  /** The body of the loop over the docker targets: find the target's rule, the
      environment from its Python prerequisites and the tag from its recipes,
      then name the template after the cleaned tag. */
  method TemplateForTarget(rules: seq<MakeRule>, target: string, configOf: string -> Option<seq<(string, string)>>)
    returns (r: Result<DockerTemplate>)
    ensures GetMakeRuleByTargetName(rules, target).Err? ==> r == Err(StopIteration)
    ensures GetMakeRuleByTargetName(rules, target).Ok? ==>
              var rule := GetMakeRuleByTargetName(rules, target).value;
              && (FirstTag(rule.recipes).None? ==> r == Err(RuntimeError(NoTagMessage(target))))
              && (FirstTag(rule.recipes).Some? ==>
                    var tag := FirstTag(rule.recipes).value.1;
                    && r.Ok? && r.value.name == CleanName(tag) && r.value.image == DockerImage(tag)
                    && r.value.environment == EnvText(rule.prerequisites, configOf))
    ensures r.Ok? ==> ':' in r.value.image && |r.value.name| > 0
  {
    var rule :- GetMakeRuleByTargetName(rules, target);
    var envVars, scanned := EnvVars(rule.prerequisites, configOf);
    var tag :- DockerTag(target, rule.recipes);
    FoundTagShape(rule.recipes);
    r := Ok(DockerTemplate(CleanName(tag), DockerImage(tag), envVars));
  }
}
