/** pkg/utils/secrets.go: secret command builders with an injectable password
    generator. The go-password library's `password.Generate` is a parameter
    `generate`; its promise (length, digit and symbol counts) is stated as the
    predicate Conforms and assumed only where a lemma says so in its requires. */
module UtilsSecrets {
  import opened Wrappers
  import opened Types

  /** secretDesc: the parameters handed to password.Generate. */
  datatype SecretDesc = SecretDesc(length: int, numDigits: int, numSymbols: int,
                                   noUpper: bool, allowRepeat: bool)

  /** newDefaultSecretDesc: 16 characters, 4 digits, 4 symbols, upper case and
      repeated characters allowed. */
  const DefaultSecretDesc := SecretDesc(16, 4, 4, false, true)

  /** password.Generate(length, numDigits, numSymbols, noUpper, allowRepeat). */
  type PasswordGenerate = SecretDesc -> Result<string>

  /** A secret generator as the builders receive it: a nil descriptor is `None`. */
  type SecretGenerator = Option<SecretDesc> -> Result<string>

  /** The status the process exits with when the generator fails. */
  const GenerationFailedStatus := 1

  predicate IsDigit(c: char) { '0' <= c <= '9' }

  /** A symbol is anything outside [a-zA-Z0-9]. */
  predicate IsSymbol(c: char) { !IsDigit(c) && !('a' <= c <= 'z') && !('A' <= c <= 'Z') }

  function CountDigits(s: string): nat
  {
    if s == [] then 0 else (if IsDigit(s[0]) then 1 else 0) + CountDigits(s[1..])
  }

  function CountSymbols(s: string): nat
  {
    if s == [] then 0 else (if IsSymbol(s[0]) then 1 else 0) + CountSymbols(s[1..])
  }

  /** What password.Generate promises about a password it returns for `d`. */
  predicate Conforms(s: string, d: SecretDesc)
  {
    && |s| == d.length
    && CountDigits(s) == d.numDigits
    && CountSymbols(s) == d.numSymbols
    && (d.noUpper ==> forall i | 0 <= i < |s| :: !('A' <= s[i] <= 'Z'))
    && (!d.allowRepeat ==> forall i, j | 0 <= i < j < |s| :: s[i] != s[j])
  }

  /** defaultSecretGenerator: a nil descriptor means the default one. */
  function DefaultSecretGenerator(generate: PasswordGenerate, sd: Option<SecretDesc>): (r: Result<string>)
    ensures sd.None? ==> r == generate(DefaultSecretDesc)
    ensures sd.Some? ==> r == generate(sd.value)
  {
    generate(if sd.None? then DefaultSecretDesc else sd.value)
  }

  /** The generator a builder ends up calling: the injected one, or the default
      generator when none (nil) is injected. */
  function Effective(secretGenerator: Option<SecretGenerator>, generate: PasswordGenerate): SecretGenerator
  {
    match secretGenerator
    case Some(g) => g
    case None => sd => DefaultSecretGenerator(generate, sd)
  }

  /** CreateDockerSecret: `echo <secret> | docker secret create <name>`. The
      generator is called with a nil descriptor; its failure exits with status 1. */
  function CreateDockerSecret(kvn: KeyValueNamespaceTuple, secretGenerator: Option<SecretGenerator>,
                              generate: PasswordGenerate): (r: Exit<string>)
    ensures var out := Effective(secretGenerator, generate)(None);
      && (r.Exited? <==> out.Err?)
      && (r.Exited? ==> r.status == GenerationFailedStatus)
      && (r.Done? ==> r.value == "echo " + out.value + " | docker secret create " + kvn.name)
  {
    match Effective(secretGenerator, generate)(None)
    case Err(_) => Exited(GenerationFailedStatus)
    case Ok(val) => Done("echo " + val + " | docker secret create " + kvn.name)
  }

  /** CreateK8sSecret: a generic secret holding the generated value under the
      key `s3-access-key`. */
  function CreateK8sSecret(kvn: KeyValueNamespaceTuple, secretGenerator: Option<SecretGenerator>,
                           generate: PasswordGenerate): (r: Exit<string>)
    ensures var out := Effective(secretGenerator, generate)(None);
      && (r.Exited? <==> out.Err?)
      && (r.Exited? ==> r.status == GenerationFailedStatus)
      && (r.Done? ==> r.value == "kubectl create secret generic -n " + kvn.namespace + " " + kvn.name
                                 + " --from-literal s3-access-key=\"" + out.value + "\"")
  {
    match Effective(secretGenerator, generate)(None)
    case Err(_) => Exited(GenerationFailedStatus)
    case Ok(val) =>
      Done("kubectl create secret generic -n " + kvn.namespace + " " + kvn.name
           + " --from-literal s3-access-key=\"" + val + "\"")
  }

  /** With no generator injected and a library that keeps its promise, the
      secret embedded in the Docker command has 16 characters, 4 of them digits
      and 4 symbols. */
  lemma DefaultDockerSecretConforms(kvn: KeyValueNamespaceTuple, generate: PasswordGenerate)
    requires forall d :: generate(d).Ok? ==> Conforms(generate(d).value, d)
    ensures CreateDockerSecret(kvn, None, generate).Done? ==>
      exists v :: CreateDockerSecret(kvn, None, generate).value == "echo " + v + " | docker secret create " + kvn.name
               && |v| == 16 && CountDigits(v) == 4 && CountSymbols(v) == 4
  {
    var out := generate(DefaultSecretDesc);
    if out.Ok? {
      assert Effective(None, generate)(None) == out;
      var v := out.value;
      assert CreateDockerSecret(kvn, None, generate).value == "echo " + v + " | docker secret create " + kvn.name;
    }
  }

  /** The same for the Kubernetes command. */
  lemma DefaultK8sSecretConforms(kvn: KeyValueNamespaceTuple, generate: PasswordGenerate)
    requires forall d :: generate(d).Ok? ==> Conforms(generate(d).value, d)
    ensures CreateK8sSecret(kvn, None, generate).Done? ==>
      exists v :: CreateK8sSecret(kvn, None, generate).value ==
                    "kubectl create secret generic -n " + kvn.namespace + " " + kvn.name
                    + " --from-literal s3-access-key=\"" + v + "\""
               && |v| == 16 && CountDigits(v) == 4 && CountSymbols(v) == 4
  {
    var out := generate(DefaultSecretDesc);
    if out.Ok? {
      assert Effective(None, generate)(None) == out;
      var v := out.value;
      assert CreateK8sSecret(kvn, None, generate).value ==
        "kubectl create secret generic -n " + kvn.namespace + " " + kvn.name
        + " --from-literal s3-access-key=\"" + v + "\"";
    }
  }

  /** An injected generator is used as it is: the library is never consulted. */
  lemma InjectedGeneratorUsed(kvn: KeyValueNamespaceTuple, g: SecretGenerator,
                              generate1: PasswordGenerate, generate2: PasswordGenerate)
    ensures CreateDockerSecret(kvn, Some(g), generate1) == CreateDockerSecret(kvn, Some(g), generate2)
    ensures CreateK8sSecret(kvn, Some(g), generate1) == CreateK8sSecret(kvn, Some(g), generate2)
  {
  }
}
