/** The prompt-delimited command channel of ssh.py. A command is sent followed by a newline;
    the remote shell echoes it, prints the command's output and a new prompt ending in "$ ".
    Output arrives in bursts: runs of chunks that are ready to be received back to back. The
    bursts the remote side will deliver are an input of the model. */
module Ssh {
  import opened Wrappers
  import opened Strings

  /** The text the prompt ends with. */
  const Prompt: string := "$ "

  /** The chunks of one burst, received back to back. */
  function Concat(chunks: seq<string>): (s: string)
    ensures chunks == [] ==> s == ""
    decreases |chunks|
  {
    if chunks == [] then "" else Concat(chunks[..|chunks| - 1]) + chunks[|chunks| - 1]
  }

  /** The text of the first `n` bursts. */
  function Received(bursts: seq<seq<string>>, n: nat): string
    requires n <= |bursts|
  {
    if n == 0 then "" else Received(bursts, n - 1) + Concat(bursts[n - 1])
  }

  /** After how many bursts `execute` stops reading: the first count after which the accumulated
      text ends with the prompt, if any (ssh.py:58-65). */
  function ReplyLength(bursts: seq<seq<string>>): (n: Option<nat>)
    ensures n.Some? ==> 1 <= n.value <= |bursts| && EndsWith(Received(bursts, n.value), Prompt) &&
                        forall m :: 1 <= m < n.value ==> !EndsWith(Received(bursts, m), Prompt)
    ensures n.None? ==> forall m :: 1 <= m <= |bursts| ==> !EndsWith(Received(bursts, m), Prompt)
  {
    ReplyFrom(bursts, 1)
  }

  function ReplyFrom(bursts: seq<seq<string>>, from: nat): (n: Option<nat>)
    requires 1 <= from
    ensures n.Some? ==> from <= n.value <= |bursts| && EndsWith(Received(bursts, n.value), Prompt) &&
                        forall m :: from <= m < n.value ==> !EndsWith(Received(bursts, m), Prompt)
    ensures n.None? ==> forall m :: from <= m <= |bursts| ==> !EndsWith(Received(bursts, m), Prompt)
    decreases |bursts| - from
  {
    if from > |bursts| then None
    else if EndsWith(Received(bursts, from), Prompt) then Some(from)
    else ReplyFrom(bursts, from + 1)
  }

  /** After which burst `_start_shell` stops: the first burst whose own text ends with the
      prompt, the text being reset for every burst (ssh.py:31-39). */
  function FirstPromptBurst(bursts: seq<seq<string>>): (k: Option<nat>)
    ensures k.Some? ==> k.value < |bursts| && EndsWith(Concat(bursts[k.value]), Prompt) &&
                        forall j :: 0 <= j < k.value ==> !EndsWith(Concat(bursts[j]), Prompt)
    ensures k.None? ==> forall j :: 0 <= j < |bursts| ==> !EndsWith(Concat(bursts[j]), Prompt)
    decreases |bursts|
  {
    if bursts == [] then None
    else if EndsWith(Concat(bursts[0]), Prompt) then Some(0)
    else match FirstPromptBurst(bursts[1..]) {
      case None => None
      case Some(k) => Some(k + 1)
    }
  }

  /** `'\n'.join(text.split('\n')[1:-1])`: the text without its first line (the echoed command)
      and its last line (the new prompt). */
  function StripEchoAndPrompt(text: string): (r: string)
    ensures |Split(text, "\n")| < 3 ==> r == ""
  {
    var lines := Split(text, "\n");
    Join(lines[1..if |lines| >= 2 then |lines| - 1 else 1], "\n")
  }

  /** A reply framed by a one-line echo and a one-line prompt gives back exactly what lies
      between them. */
  lemma TrimFramed(echo: string, body: string, prompt: string)
    requires '\n' !in echo && '\n' !in prompt
    ensures StripEchoAndPrompt(echo + "\n" + body + "\n" + prompt) == body
  {
    var text := echo + "\n" + body + "\n" + prompt;
    assert text == echo + ['\n'] + (body + ['\n'] + prompt);
    SplitAtFirst(echo, '\n', body + ['\n'] + prompt);
    SplitAtLast(body, '\n', prompt);
    var lines := Split(text, "\n");
    assert lines == [echo] + (Split(body, "\n") + [prompt]);
    assert lines[1..|lines| - 1] == Split(body, "\n");
    JoinSplit(body, "\n");
  }

  /** Why a call fails: no shell was ever started (`self.shell` is unset, AttributeError), or the
      prompt never came back (the source waits for ever). */
  datatype SshError = NoShell | NoPrompt

  /** `execute` over a channel state: what it returns and which bursts are left unread
      (ssh.py:41-68). */
  function ExecSpec(started: bool, incoming: seq<seq<string>>, awaitOutput: bool): (r: (Result<string, SshError>, seq<seq<string>>))
    ensures !started ==> r.0 == Failure(NoShell)
    ensures started && !awaitOutput ==> r == (Success(""), incoming)
  {
    if !started then (Failure(NoShell), incoming)
    else if !awaitOutput then (Success(""), incoming)
    else match ReplyLength(incoming) {
      case None => (Failure(NoPrompt), [])
      case Some(n) => (Success(StripEchoAndPrompt(Received(incoming, n))), incoming[n..])
    }
  }

  /** The state of one channel as a value: whether a shell was started, what was sent, and the
      bursts still to come. */
  datatype Session = Session(started: bool, sent: seq<string>, incoming: seq<seq<string>>)

  /** `execute(command, await_output)` over a channel state: its result and the state after it. */
  function Run(s: Session, command: string, awaitOutput: bool): (r: (Result<string, SshError>, Session))
    ensures r.1.started == s.started
    ensures !s.started ==> r == (Failure(NoShell), s)
    ensures s.started ==> r.1.sent == s.sent + [command + "\n"]
    ensures r.0.Success? && awaitOutput ==> |r.1.incoming| < |s.incoming|
  {
    var e := ExecSpec(s.started, s.incoming, awaitOutput);
    (e.0, Session(s.started, if s.started then s.sent + [command + "\n"] else s.sent, e.1))
  }

  /** When the first `n` bursts together carry the echo, the output and a prompt, and no shorter
      run of bursts ends with the prompt, `execute` returns the output and leaves the bursts
      after the `n`-th unread. */
  lemma ExecuteReturnsOutput(incoming: seq<seq<string>>, n: nat, echo: string, body: string, prompt: string)
    requires 1 <= n <= |incoming|
    requires forall m :: 1 <= m < n ==> !EndsWith(Received(incoming, m), Prompt)
    requires '\n' !in echo && '\n' !in prompt && EndsWith(prompt, Prompt)
    requires Received(incoming, n) == echo + "\n" + body + "\n" + prompt
    ensures ExecSpec(true, incoming, true) == (Success(body), incoming[n..])
  {
    var text := echo + "\n" + body + "\n" + prompt;
    assert text[|text| - |Prompt|..] == prompt[|prompt| - |Prompt|..];
    assert EndsWith(Received(incoming, n), Prompt);
    ReplyAt(incoming, n);
    TrimFramed(echo, body, prompt);
  }

  /** The reply length is the first count after which the text received ends with the prompt. */
  lemma ReplyAt(incoming: seq<seq<string>>, n: nat)
    requires 1 <= n <= |incoming| && EndsWith(Received(incoming, n), Prompt)
    requires forall m :: 1 <= m < n ==> !EndsWith(Received(incoming, m), Prompt)
    ensures ReplyLength(incoming) == Some(n)
  {
  }

  /** When no run of bursts ends with the prompt, `execute` fails and every burst is consumed. */
  lemma ExecuteNoPrompt(incoming: seq<seq<string>>)
    requires forall m :: 1 <= m <= |incoming| ==> !EndsWith(Received(incoming, m), Prompt)
    ensures ExecSpec(true, incoming, true) == (Failure(NoPrompt), [])
  {
  }

  /** `SSHConnection`: the channel to one remote shell. */
  class Shell {
    /** Whether `_start_shell` has run; `__init__` does not call it (ssh.py:22). */
    var started: bool
    /** Everything sent to the remote shell, in order. */
    var sent: seq<string>
    /** The bursts the remote side will still deliver. */
    var incoming: seq<seq<string>>

    function State(): Session
      reads this
    {
      Session(started, sent, incoming)
    }

    constructor (incoming: seq<seq<string>>)
      ensures !started && sent == [] && this.incoming == incoming
    {
      started := false;
      sent := [];
      this.incoming := incoming;
    }

    /** `_start_shell`: send one newline, then drain the initial output, burst by burst, until a
        burst ends with the prompt. */
    method StartShell() returns (r: Result<(), SshError>)
      modifies this
      ensures started && sent == old(sent) + ["\n"]
      ensures r.Success? <==> FirstPromptBurst(old(incoming)).Some?
      ensures r.Success? ==> incoming == old(incoming)[FirstPromptBurst(old(incoming)).value + 1..]
      ensures r.Failure? ==> r.error == NoPrompt && incoming == []
    {
      started := true;
      sent := sent + ["\n"];
      ghost var all := incoming;
      ghost var k := 0;
      while incoming != []
        invariant 0 <= k <= |all| && incoming == all[k..]
        invariant forall j :: 0 <= j < k ==> !EndsWith(Concat(all[j]), Prompt)
        invariant started && sent == old(sent) + ["\n"]
        decreases |incoming|
      {
        var output := Concat(incoming[0]);
        incoming := incoming[1..];
        k := k + 1;
        if EndsWith(output, Prompt) {
          return Success(());
        }
      }
      return Failure(NoPrompt);
    }

    /** `execute(command, await_output)`: with a shell, the command and a newline are always sent
        first; without waiting the result is empty and nothing is read. */
    method Execute(command: string, awaitOutput: bool) returns (r: Result<string, SshError>)
      modifies this
      ensures started == old(started)
      ensures (r, incoming) == ExecSpec(old(started), old(incoming), awaitOutput)
      ensures sent == if old(started) then old(sent) + [command + "\n"] else old(sent)
      ensures (r, State()) == Run(old(State()), command, awaitOutput)
    {
      if !started {
        return Failure(NoShell);
      }
      sent := sent + [command + "\n"];
      if !awaitOutput {
        return Success("");
      }
      r := ReadReply();
    }

    /** ssh.py:54-67: read bursts until the text received ends with the prompt, then drop the
        echo and the prompt line. */
    method ReadReply() returns (r: Result<string, SshError>)
      modifies this
      ensures started == old(started) && sent == old(sent)
      ensures (r, incoming) == ExecSpec(true, old(incoming), true)
    {
      ghost var all := incoming;
      var output := "";
      var n := 0;
      while incoming != []
        invariant 0 <= n <= |all| && incoming == all[n..]
        invariant output == Received(all, n)
        invariant ReplyLength(all) == ReplyFrom(all, n + 1)
        invariant started == old(started) && sent == old(sent)
        decreases |incoming|
      {
        output := output + Concat(incoming[0]);
        incoming := incoming[1..];
        n := n + 1;
        if EndsWith(output, Prompt) {
          return Success(StripEchoAndPrompt(output));
        }
      }
      incoming := [];
      return Failure(NoPrompt);
    }
  }
}
