/** Alias resolution: from the name the script was invoked under to the
    sub-command module and the class name to load from it. */
module AliasResolver {
  import opened Wrappers
  import opened Errors
  import opened PyString

  /** The sub-command (`ansible.cli.<sub>`) and the class to load from it. */
  datatype Target = Target(sub: string, cls: string)

  /** The suite's primary program name. */
  const Primary: string := "ansible"

  /** What the primary name alone resolves to. */
  const AdHoc: Target := Target("adhoc", "AdHocCLI")

  const UnknownAliasPrefix: string := "Unknown Ansible alias: "

  /** The class name derived from a sub-command name: the capitalized name
      followed by `CLI`. */
  function ClassFor(sub: string): (cls: string)
    ensures |cls| == |sub| + 3 && EndsWith(cls, "CLI")
  {
    Capitalize(sub) + "CLI"
  }

  /** The tokens left once a trailing version token has been dropped (at most
      once). Empty when the basename was a single version token. */
  function Kept(target: seq<string>): (kept: seq<string>)
    requires |target| >= 1 && target[|target| - 1] != ""
    ensures |target| - 1 <= |kept| <= |target| && kept == target[..|kept|]
    ensures |kept| < |target| <==> IsDigit(target[|target| - 1][0])
  {
    var last := target[|target| - 1];
    if IsDigit(last[0]) then target[..|target| - 1] else target
  }

  /** Resolution of the invocation basename `me`, raising the error the
      script raises. */
  function Resolve(me: string): (r: Result<Target, Exc>)
    ensures r.Ok? ==> '-' !in r.value.sub
    ensures r.Ok? ==> r.value == AdHoc || r.value.cls == ClassFor(r.value.sub)
    ensures r.Err? ==> r.error.IndexError? || r.error == AnsibleError(UnknownAliasPrefix + me)
  {
    Decide(me, Split(me, '-'))
  }

  /** Resolution from the tokens of `me`. */
  function Decide(me: string, target: seq<string>): (r: Result<Target, Exc>)
    requires |target| >= 1 && forall i :: 0 <= i < |target| ==> '-' !in target[i]
    ensures r.Ok? ==> '-' !in r.value.sub
  {
    if target[|target| - 1] == "" then
      // target[-1][0] on an empty token
      Err(IndexError("string index out of range"))
    else
      var kept := Kept(target);
      if |kept| > 1 then
        Ok(Target(kept[1], ClassFor(kept[1])))
      else if |kept| == 0 then
        // target[0] on an emptied list
        Err(IndexError("list index out of range"))
      else if kept[0] == Primary then
        Ok(AdHoc)
      else
        Err(AnsibleError(UnknownAliasPrefix + me))
  }

  /** Resolution raises `IndexError` exactly when the basename is empty, ends
      with `-`, or is a single token starting with a digit. */
  lemma IndexErrorIff(me: string)
    ensures Resolve(me).Err? && Resolve(me).error.IndexError? <==>
      |me| == 0 || me[|me| - 1] == '-' || ('-' !in me && IsDigit(me[0]))
  {
    LastPartEmpty(me, '-');
    SinglePart(me, '-');
    var target := Split(me, '-');
    if |target| == 1 {
      JoinSplit(me, '-');
      assert target[0] == me;
    }
  }

  /** With at least two tokens after the first one, the sub-command is the
      second token whatever the first is, and whatever follows it; a trailing
      version token is dropped once, so `ansible-3-2` resolves to `3`. */
  lemma {:induction false} SecondToken(first: string, sub: string, rest: string)
    requires '-' !in first && '-' !in sub
    requires |rest| > 0 && rest[|rest| - 1] != '-'
    ensures Resolve(first + "-" + sub + "-" + rest) == Ok(Target(sub, ClassFor(sub)))
  {
    var me := first + "-" + sub + "-" + rest;
    SplitAfterPart(sub, '-', rest);
    assert me == first + ['-'] + (sub + ['-'] + rest);
    SplitAfterPart(first, '-', sub + ['-'] + rest);
    LastPartEmpty(rest, '-');
    ResolveFromTokens(me, first, sub, Split(rest, '-'));
  }

  /** Resolution from the tokens alone: a second token followed by at least
      one more, the last non-empty, is the sub-command. */
  lemma ResolveFromTokens(me: string, first: string, sub: string, tail: seq<string>)
    requires Split(me, '-') == [first, sub] + tail
    requires |tail| >= 1 && tail[|tail| - 1] != ""
    ensures Resolve(me) == Ok(Target(sub, ClassFor(sub)))
  {
    var target := [first, sub] + tail;
    assert target[1] == sub;
    assert target[|target| - 1] == tail[|tail| - 1];
    var kept := Kept(target);
    assert |kept| >= 2;
    assert kept[1] == target[1];
    assert Decide(me, target) == Ok(Target(sub, ClassFor(sub)));
  }

  /** Two tokens whose second does not start with a digit: the second is the
      sub-command. */
  lemma {:induction false} TwoTokens(first: string, sub: string)
    requires '-' !in first && '-' !in sub
    requires |sub| > 0 && !IsDigit(sub[0])
    ensures Resolve(first + "-" + sub) == Ok(Target(sub, ClassFor(sub)))
  {
    SplitNoSep(sub, '-');
    SplitAfterPart(first, '-', sub);
    assert Split(first + "-" + sub, '-') == [first, sub];
  }

  /** A single token: the primary name resolves to `adhoc`, any other name not
      starting with a digit is an unknown alias. */
  lemma {:induction false} SoleToken(name: string)
    requires '-' !in name
    requires |name| > 0 && !IsDigit(name[0])
    ensures Resolve(name) == if name == Primary then Ok(AdHoc) else Err(AnsibleError(UnknownAliasPrefix + name))
  {
    SplitNoSep(name, '-');
  }

  /** A single token followed by a version token: the version is dropped and
      the token alone decides, even when it starts with a digit itself
      (`ansible-2.9` is `adhoc`, `2-3` is an unknown alias). */
  lemma {:induction false} SoleTokenVersioned(name: string, version: string)
    requires '-' !in name && '-' !in version
    requires |version| > 0 && IsDigit(version[0])
    ensures Resolve(name + "-" + version) ==
      if name == Primary then Ok(AdHoc) else Err(AnsibleError(UnknownAliasPrefix + name + "-" + version))
  {
    var me := name + "-" + version;
    SplitNoSep(version, '-');
    SplitAfterPart(name, '-', version);
    var target := [name, version];
    assert Split(me, '-') == target;
    assert Kept(target) == [name];
    assert UnknownAliasPrefix + name + "-" + version == UnknownAliasPrefix + me;
    assert Resolve(me) == Decide(me, target);
  }

  /** `ansible-playbook-2.9` loads `PlaybookCLI` from `ansible.cli.playbook`.
      The pieces of the name are parameters fixed by the precondition: on
      literal arguments the verifier would unfold `capitalize` without
      bound. */
  lemma PlaybookExample(first: string, sub: string, version: string)
    requires first == "ansible" && sub == "playbook" && version == "2.9"
    ensures Resolve(first + "-" + sub + "-" + version) == Ok(Target("playbook", "PlaybookCLI"))
  {
    SecondToken(first, sub, version);
    assert Capitalize(sub) == "Playbook";
    assert ClassFor(sub) == "PlaybookCLI";
  }

  /** `ansible` alone loads `AdHocCLI` from `ansible.cli.adhoc`. */
  lemma PrimaryExample()
    ensures Resolve("ansible") == Ok(Target("adhoc", "AdHocCLI"))
  {
    SoleToken(Primary);
  }

  /** `ansible-adhoc` names the same module as `ansible` but derives the class
      name `AdhocCLI`, not `AdHocCLI` (pieces fixed as in `PlaybookExample`). */
  lemma AdhocAliasExample(name: string, sub: string)
    requires name == "ansible" && sub == "adhoc"
    ensures Resolve(name + "-" + sub) == Ok(Target("adhoc", "AdhocCLI"))
    ensures Resolve(name + "-" + sub) != Resolve(name)
  {
    TwoTokens(name, sub);
    assert Capitalize(sub) == "Adhoc";
    assert ClassFor(sub) == "AdhocCLI";
    SoleToken(name);
  }
}
