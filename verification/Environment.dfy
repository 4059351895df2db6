/** Process environments: what a container's variables look like to the program it runs. */
module Environment {
  import opened Webhook

  /** os.Getenv: an unset variable reads as the empty text. */
  type Env = string -> string

  function Or(value: string, otherwise: string): string {
    if value == "" then otherwise else value
  }

  function ValueText(value: EnvValue, secrets: string -> string): string {
    match value
    case Literal(text) => text
    case FromSecret(secret) => secrets(secret)
  }

  /** The value of a variable, where `secrets` gives the "value" key of each secret. */
  function Lookup(vars: seq<EnvVar>, secrets: string -> string, name: string): string {
    if vars == [] then ""
    else if vars[0].name == name then ValueText(vars[0].value, secrets)
    else Lookup(vars[1..], secrets, name)
  }

  lemma LookupOne(v: EnvVar, rest: seq<EnvVar>, secrets: string -> string, name: string)
    ensures Lookup([v] + rest, secrets, name)
            == if v.name == name then ValueText(v.value, secrets) else Lookup(rest, secrets, name)
  {}

  lemma LookupWhen(condition: bool, v: EnvVar, rest: seq<EnvVar>, secrets: string -> string, name: string)
    ensures Lookup(When(condition, v) + rest, secrets, name)
            == if condition && v.name == name then ValueText(v.value, secrets) else Lookup(rest, secrets, name)
  {
    if condition {
      LookupOne(v, rest, secrets, name);
    } else {
      assert When(condition, v) + rest == rest;
    }
  }
}
