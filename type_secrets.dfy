/** pkg/types/secrets.go: the command lines that create one secret, either as a
    Kubernetes secret (`kubectl create secret generic`) or as a Docker swarm
    secret. `generateSecret`, which runs a script and hashes its output, is an
    oracle `gen`: `gen(k)` is what the k-th call (counting from 0) returns. */
module TypesSecrets {
  import opened Wrappers
  import opened Types
  import opened GoStrings

  /** The secret generator: the result of its k-th call. */
  type Generator = nat -> Result<string>

  /** The status the process exits with when secret generation fails. */
  const GenerationFailedStatus := 1

  /** `kubectl create secret generic -n <namespace> <name>` */
  function BaseCommand(kvn: KeyValueNamespaceTuple): string
  {
    "kubectl create secret generic -n " + kvn.namespace + " " + kvn.name
  }

  /** ` --from-literal=<name>=<value>` */
  function LiteralArg(name: string, value: string): string
  {
    " --from-literal=" + name + "=" + value
  }

  /** ` --from-file=<name>=<expanded path>` */
  function FileArg(f: FileSecret, home: string): string
  {
    " --from-file=" + f.name + "=" + ExpandValueFrom(f, home)
  }

  /** How many literals have an empty value, i.e. how many generator calls they need. */
  function GenCalls(lits: seq<KeyValueTuple>): (n: nat)
    ensures n <= |lits|
  {
    if lits == [] then 0
    else GenCalls(lits[..|lits| - 1]) + (if lits[|lits| - 1].value == "" then 1 else 0)
  }

  /** The values the literals end up with: a literal's own value when it is
      non-empty, otherwise the output of the next generator call. None when a
      generator call fails (the process then exits). */
  function Resolve(lits: seq<KeyValueTuple>, gen: Generator): (r: Option<seq<string>>)
    ensures r.Some? ==> |r.value| == |lits|
  {
    if lits == [] then Some([])
    else
      var init, last := lits[..|lits| - 1], lits[|lits| - 1];
      match Resolve(init, gen)
      case None => None
      case Some(vs) =>
        if last.value != "" then Some(vs + [last.value])
        else
          match gen(GenCalls(init))
          case Err(_) => None
          case Ok(v) => Some(vs + [v])
  }

  /** Resolve keeps every non-empty literal verbatim, gives the i-th empty
      literal the output of generator call number i, and fails exactly when one
      of those calls fails. */
  lemma {:induction false} ResolveSpec(lits: seq<KeyValueTuple>, gen: Generator)
    ensures var r := Resolve(lits, gen);
      && (r.Some? ==> forall i | 0 <= i < |lits| && lits[i].value != "" :: r.value[i] == lits[i].value)
      && (r.Some? ==> forall i | 0 <= i < |lits| && lits[i].value == "" :: gen(GenCalls(lits[..i])) == Ok(r.value[i]))
      && (r.None? <==> exists i | 0 <= i < |lits| :: lits[i].value == "" && gen(GenCalls(lits[..i])).Err?)
  {
    if lits != [] {
      var init := lits[..|lits| - 1];
      ResolveSpec(init, gen);
      assert forall i | 0 <= i < |init| :: lits[..i] == init[..i];
      assert lits[..|lits| - 1] == init;
    }
  }

  /** Once the values of a prefix are resolved, a failing generator call for
      the next literal makes the whole resolution fail. */
  lemma {:induction false} ResolveFailsAt(lits: seq<KeyValueTuple>, gen: Generator, i: nat)
    requires i < |lits| && Resolve(lits[..i], gen).Some?
    requires lits[i].value == "" && gen(GenCalls(lits[..i])).Err?
    ensures Resolve(lits, gen).None?
    decreases |lits|
  {
    if i == |lits| - 1 {
      assert lits[..|lits| - 1] == lits[..i];
    } else {
      var init := lits[..|lits| - 1];
      assert init[..i] == lits[..i];
      ResolveFailsAt(init, gen, i);
    }
  }

  /** The literal arguments, in list order, with the resolved values. */
  function LiteralArgs(lits: seq<KeyValueTuple>, values: seq<string>): string
    requires |values| == |lits|
  {
    if lits == [] then ""
    else LiteralArgs(lits[..|lits| - 1], values[..|lits| - 1]) + LiteralArg(lits[|lits| - 1].name, values[|lits| - 1])
  }

  /** The file arguments, in list order. */
  function FileArgs(files: seq<FileSecret>, home: string): string
  {
    if files == [] then "" else FileArgs(files[..|files| - 1], home) + FileArg(files[|files| - 1], home)
  }

  /** The non-empty value commands of `files`, in the order they are run. */
  function ValueCommands(files: seq<FileSecret>): seq<string>
  {
    if files == [] then []
    else
      var last := files[|files| - 1];
      ValueCommands(files[..|files| - 1]) + (if last.valueCommand != "" then [last.valueCommand] else [])
  }

  /** Exactly the non-empty value commands are run: every command run is
      non-empty, and every file with a non-empty command has it run. */
  lemma {:induction false} ValueCommandsSpec(files: seq<FileSecret>)
    ensures forall c | c in ValueCommands(files) :: c != ""
    ensures forall f | f in files && f.valueCommand != "" :: f.valueCommand in ValueCommands(files)
  {
    if files != [] {
      var init := files[..|files| - 1];
      ValueCommandsSpec(init);
      assert forall f | f in files :: f in init || f == files[|files| - 1];
    }
  }

  /** What CreateK8sSecret produces: the base command, every literal argument,
      then every file argument; or exit status 1 when a generator call fails. */
  function K8sSecret(kvn: KeyValueNamespaceTuple, home: string, gen: Generator): Exit<string>
  {
    match Resolve(kvn.literals, gen)
    case None => Exited(GenerationFailedStatus)
    case Some(vs) => Done(BaseCommand(kvn) + LiteralArgs(kvn.literals, vs) + FileArgs(kvn.files, home))
  }

  /** One turn of the literal loop: resolving and rendering one more literal. */
  lemma LiteralStep(lits: seq<KeyValueTuple>, gen: Generator, i: nat, values: seq<string>, v: string)
    requires i < |lits| && Resolve(lits[..i], gen) == Some(values)
    requires lits[i].value != "" ==> v == lits[i].value
    requires lits[i].value == "" ==> gen(GenCalls(lits[..i])) == Ok(v)
    ensures Resolve(lits[..i + 1], gen) == Some(values + [v])
    ensures GenCalls(lits[..i + 1]) == GenCalls(lits[..i]) + (if lits[i].value == "" then 1 else 0)
    ensures LiteralArgs(lits[..i + 1], values + [v]) == LiteralArgs(lits[..i], values) + LiteralArg(lits[i].name, v)
  {
    assert lits[..i + 1][..i] == lits[..i];
    assert (values + [v])[..i] == values;
  }

  /** The second loop of CreateK8sSecret: run each file's value command when it
      has one (its failure is only logged), then append the file argument. */
  method AppendFiles(head: string, files: seq<FileSecret>, home: string) returns (secretCmd: string, ran: seq<string>)
    ensures secretCmd == head + FileArgs(files, home)
    ensures ran == ValueCommands(files)
  {
    secretCmd, ran := head, [];
    for i := 0 to |files|
      invariant secretCmd == head + FileArgs(files[..i], home)
      invariant ran == ValueCommands(files[..i])
    {
      assert files[..i + 1][..i] == files[..i];
      if |files[i].valueCommand| > 0 {
        ran := ran + [files[i].valueCommand];
      }
      var arg := FileArg(files[i], home);
      assert FileArgs(files[..i + 1], home) == FileArgs(files[..i], home) + arg;
      secretCmd := secretCmd + arg;
    }
    assert files[..|files|] == files;
  }

  /** CreateK8sSecret: build the command over two loops, literals first, then
      files. Returns the command (or the exit) and the value commands it ran;
      a value command's failure is only logged, so the run goes on. */
  method CreateK8sSecret(kvn: KeyValueNamespaceTuple, home: string, gen: Generator)
    returns (r: Exit<string>, ran: seq<string>)
    ensures r == K8sSecret(kvn, home, gen)
    ensures r.Exited? ==> r.status == GenerationFailedStatus && ran == []
    ensures r.Done? ==> ran == ValueCommands(kvn.files)
  {
    var lits := kvn.literals;
    var secretCmd := BaseCommand(kvn);
    var calls := 0;
    ghost var values: seq<string> := [];
    ran := [];
    for i := 0 to |lits|
      invariant Resolve(lits[..i], gen) == Some(values)
      invariant calls == GenCalls(lits[..i])
      invariant secretCmd == BaseCommand(kvn) + LiteralArgs(lits[..i], values)
    {
      var secretValue := lits[i].value;
      if |secretValue| == 0 {
        var val := gen(calls);
        if val.Err? {
          ResolveFailsAt(lits, gen, i);
          r := Exited(GenerationFailedStatus);
          return;
        }
        secretValue := val.value;
        calls := calls + 1;
      }
      LiteralStep(lits, gen, i, values, secretValue);
      values := values + [secretValue];
      secretCmd := secretCmd + LiteralArg(lits[i].name, secretValue);
    }
    assert lits[..|lits|] == lits;
    secretCmd, ran := AppendFiles(secretCmd, kvn.files, home);
    r := Done(secretCmd);
  }

  /** The command always starts with the base command, and the process exits
      exactly when some generator call needed by an empty literal fails. */
  lemma K8sSecretShape(kvn: KeyValueNamespaceTuple, home: string, gen: Generator)
    ensures K8sSecret(kvn, home, gen).Done? ==> HasPrefix(K8sSecret(kvn, home, gen).value, BaseCommand(kvn))
    ensures K8sSecret(kvn, home, gen).Exited? <==>
      exists i | 0 <= i < |kvn.literals| :: kvn.literals[i].value == "" && gen(GenCalls(kvn.literals[..i])).Err?
  {
    ResolveSpec(kvn.literals, gen);
  }

  /** With no empty literal the generator is never consulted: the values are the
      literals' own. */
  lemma {:induction false} NoEmptyLiteralNoGeneration(lits: seq<KeyValueTuple>, gen: Generator)
    requires forall i | 0 <= i < |lits| :: lits[i].value != ""
    ensures GenCalls(lits) == 0
    ensures Resolve(lits, gen).Some?
  {
    if lits != [] {
      NoEmptyLiteralNoGeneration(lits[..|lits| - 1], gen);
    }
  }

  /** CreateDockerSecret: `echo <value> | docker secret create <name>` with the
      value from the first generator call, or exit status 1. */
  function DockerSecret(kvn: KeyValueNamespaceTuple, gen: Generator): (r: Exit<string>)
    ensures r.Exited? <==> gen(0).Err?
    ensures r.Exited? ==> r.status == GenerationFailedStatus
    ensures r.Done? ==> r.value == "echo " + gen(0).value + " | docker secret create " + kvn.name
  {
    match gen(0)
    case Err(_) => Exited(GenerationFailedStatus)
    case Ok(val) => Done("echo " + val + " | docker secret create " + kvn.name)
  }
}
