/** The exit status of the verification checks, as the shell computes it (XCU section 2.9.3). */
module Shell {
  import opened Prelude
  import opened Annotations
  import opened Plan

  datatype Connector = And | Or

  /** `first` followed by commands joined with `&&` and `||`, which have equal precedence and associate to the left. */
  datatype AndOrList = AndOrList(first: string, rest: seq<(Connector, string)>)

  function Then(list: AndOrList, c: Connector, command: string): AndOrList {
    list.(rest := list.rest + [(c, command)])
  }

  function RenderRest(rest: seq<(Connector, string)>): string {
    if rest == [] then ""
    else (if rest[0].0 == And then " && " else " || ") + rest[0].1 + RenderRest(rest[1..])
  }

  function Render(list: AndOrList): string {
    list.first + RenderRest(list.rest)
  }

  /** What each command would exit with, by its position in the list. */
  type Outcomes = nat -> nat

  function ExecRest(status: nat, rest: seq<(Connector, string)>, position: nat, outcome: Outcomes): nat
    decreases |rest|
  {
    if rest == [] then status
    else
      var runs := if rest[0].0 == And then status == 0 else status != 0;
      ExecRest(if runs then outcome(position) else status, rest[1..], position + 1, outcome)
  }

  function Exec(list: AndOrList, outcome: Outcomes): nat {
    ExecRest(outcome(0), list.rest, 1, outcome)
  }

  lemma {:induction false} ExecRestSnoc(
    status: nat, rest: seq<(Connector, string)>, position: nat, outcome: Outcomes, c: Connector, command: string)
    ensures var before := ExecRest(status, rest, position, outcome);
            ExecRest(status, rest + [(c, command)], position, outcome) ==
            if (c == And) == (before == 0) then outcome(position + |rest|) else before
    decreases |rest|
  {
    var last := [(c, command)];
    if rest == [] {
      assert rest + last == last && last[1..] == [];
    } else {
      var runs := if rest[0].0 == And then status == 0 else status != 0;
      assert (rest + last)[1..] == rest[1..] + last;
      ExecRestSnoc(if runs then outcome(position) else status, rest[1..], position + 1, outcome, c, command);
    }
  }

  lemma {:induction false} RenderRestSnoc(rest: seq<(Connector, string)>, command: string)
    ensures RenderRest(rest + [(Or, command)]) == RenderRest(rest) + " || " + command
  {
    var last := [(Or, command)];
    if rest == [] {
      assert rest + last == last && last[1..] == [];
      assert "" + " || " + command == " || " + command + "";
    } else {
      assert (rest + last)[1..] == rest[1..] + last;
      RenderRestSnoc(rest[1..], command);
      var head := (if rest[0].0 == And then " && " else " || ") + rest[0].1;
      Associative(head, RenderRest(rest[1..]), " || ");
      Associative(head, RenderRest(rest[1..]) + " || ", command);
    }
  }

  /**
   * The verifier of any check, of any number of commands. Not enforcing: its one argument is the check with
   * the note appended, and with an `echo` that succeeds it exits 0 whatever the commands do. Enforcing: its
   * argument is the check, so it exits as the check does.
   */
  lemma VerifierStatus(
    id: ProviderId, image: string, check: AndOrList, env: seq<EnvVar>, mounts: seq<VolumeMount>, outcome: Outcomes)
    ensures var noted := Then(check, Or, FAILURE_NOTE);
            && VerifyInitContainer(id, image, Render(check), false, env, mounts).args == [Render(noted)]
            && (outcome(1 + |check.rest|) == 0 ==> Exec(noted, outcome) == 0)
            && Exec(noted, outcome) == (if Exec(check, outcome) == 0 then 0 else outcome(1 + |check.rest|))
    ensures VerifyInitContainer(id, image, Render(check), true, env, mounts).args == [Render(check)]
  {
    ExecRestSnoc(outcome(0), check.rest, 1, outcome, Or, FAILURE_NOTE);
    RenderRestSnoc(check.rest, FAILURE_NOTE);
    Associative(check.first, RenderRest(check.rest), " || ");
    Associative(check.first, RenderRest(check.rest) + " || ", FAILURE_NOTE);
  }
}
