/**
  The voice-command endpoint of `main.py`: a keyword classifier over the
  lower-cased command text that always reports success.
 */
module Voice {
  import opened Json

  /** `str.lower()` on one character, for the ASCII letters. */
  function LowerChar(c: char): char
  {
    if 'A' <= c <= 'Z' then (c as int + 32) as char else c
  }

  function Lower(s: string): (r: string)
    ensures |r| == |s|
    ensures forall i :: 0 <= i < |s| ==> r[i] == LowerChar(s[i])
  {
    if s == [] then [] else [LowerChar(s[0])] + Lower(s[1..])
  }

  /** `sub` is the slice of `s` that starts at index `i`. */
  predicate OccursAt(s: string, sub: string, i: nat)
  {
    i + |sub| <= |s| && s[i..i + |sub|] == sub
  }

  /** `sub in s` */
  predicate Contains(s: string, sub: string)
    ensures Contains(s, sub) <==> exists i: nat :: OccursAt(s, sub, i)
    decreases |s|
  {
    if |sub| > |s| then false
    else if s[..|sub|] == sub then assert OccursAt(s, sub, 0); true
    else
      assert forall i: nat :: OccursAt(s[1..], sub, i) <==> OccursAt(s, sub, i + 1) by {
        forall i: nat ensures OccursAt(s[1..], sub, i) <==> OccursAt(s, sub, i + 1) {
          if i + 1 + |sub| <= |s| {
            assert s[1..][i..i + |sub|] == s[i + 1..i + 1 + |sub|];
          }
        }
      }
      assert (exists i: nat :: OccursAt(s, sub, i)) <==> OccursAt(s, sub, 0) || exists i: nat :: OccursAt(s[1..], sub, i) by {
        if i: nat :| OccursAt(s, sub, i) && i > 0 {
          assert OccursAt(s[1..], sub, i - 1);
        }
      }
      Contains(s[1..], sub)
  }

  datatype Action = Navigation | Alert | Unknown

  /** The `action` string of the reply; distinct actions get distinct strings. */
  function ActionName(a: Action): (s: string)
    ensures s == "navigation" <==> a == Navigation
    ensures s == "alert" <==> a == Alert
    ensures s == "unknown" <==> a == Unknown
  {
    match a
    case Navigation => "navigation"
    case Alert => "alert"
    case Unknown => "unknown"
  }

  /** The text each action's reply puts before the command. */
  function MessagePrefix(a: Action): string
  {
    match a
    case Navigation => "Starting navigation based on command: "
    case Alert => "Checking for alerts based on command: "
    case Unknown => "Command received: "
  }

  datatype VoiceReply = VoiceReply(success: bool, action: Action, message: string)

  /** The action a command text selects; "navigate" is tested before "alert" and "warning". */
  function Classify(command: string): (a: Action)
    ensures a == Navigation <==> Contains(Lower(command), "navigate")
    ensures a == Alert <==> (!Contains(Lower(command), "navigate")
                             && (Contains(Lower(command), "alert") || Contains(Lower(command), "warning")))
    ensures a == Unknown <==> (!Contains(Lower(command), "navigate") && !Contains(Lower(command), "alert")
                               && !Contains(Lower(command), "warning"))
  {
    var text := Lower(command);
    if Contains(text, "navigate") then Navigation
    else if Contains(text, "alert") || Contains(text, "warning") then Alert
    else Unknown
  }

  /** `process_voice_command`: a command that is not a string fails on `.lower()`. */
  function ProcessVoiceCommand(data: Record): (r: Result<VoiceReply>)
    ensures Get(data, "command", Str("")).Str? <==> r.Ok?
    ensures r.Err? ==> r.error == Uncaught(AttributeFault)
    ensures r.Ok? ==> r.value.success
    ensures r.Ok? ==> r.value.action == Classify(Get(data, "command", Str("")).s)
    ensures r.Ok? ==> (ActionName(r.value.action) == "navigation"
                       <==> Contains(Lower(Get(data, "command", Str("")).s), "navigate"))
    ensures r.Ok? ==> r.value.message == MessagePrefix(r.value.action) + Get(data, "command", Str("")).s
  {
    match Get(data, "command", Str(""))
    case Str(command) =>
      var action := Classify(command);
      Ok(VoiceReply(true, action, MessagePrefix(action) + command))
    case _ => Err(Uncaught(AttributeFault))
  }

  /** Lower-casing twice is lower-casing once. */
  lemma {:induction false} LowerIdempotent(s: string)
    ensures Lower(Lower(s)) == Lower(s)
  {
    if s != [] {
      LowerIdempotent(s[1..]);
      assert Lower(s)[1..] == Lower(s[1..]);
    }
  }

  /** The classifier ignores case: a command and its lower-cased form select the same action. */
  lemma ClassifyIgnoresCase(command: string)
    ensures Classify(Lower(command)) == Classify(command)
  {
    LowerIdempotent(command);
  }

  lemma {:induction false} ContainsExtendRight(s: string, t: string, sub: string)
    requires Contains(s, sub)
    ensures Contains(s + t, sub)
    decreases |s|
  {
    if s[..|sub|] != sub {
      assert (s + t)[1..] == s[1..] + t;
      ContainsExtendRight(s[1..], t, sub);
    } else {
      assert (s + t)[..|sub|] == s[..|sub|];
    }
  }

  lemma {:induction false} ContainsExtendLeft(p: string, s: string, sub: string)
    requires Contains(s, sub)
    ensures Contains(p + s, sub)
    decreases |p|
  {
    if p == [] {
      assert p + s == s;
    } else {
      assert (p + s)[1..] == p[1..] + s;
      ContainsExtendLeft(p[1..], s, sub);
    }
  }

  lemma LowerConcat(a: string, b: string)
    ensures Lower(a + b) == Lower(a) + Lower(b)
  {
    assert forall i :: 0 <= i < |a + b| ==> Lower(a + b)[i] == (Lower(a) + Lower(b))[i];
  }

  lemma ContainsInContext(b: string, c: string, a: string, sub: string)
    requires Contains(c, sub)
    ensures Contains(b + c + a, sub)
  {
    ContainsExtendRight(c, a, sub);
    ContainsExtendLeft(b, c + a, sub);
    assert b + (c + a) == b + c + a;
  }

  /** Words around a navigation command do not change its classification. */
  lemma NavigationSurvivesContext(before: string, command: string, after: string)
    requires Classify(command) == Navigation
    ensures Classify(before + command + after) == Navigation
  {
    var text := Lower(before + command + after);
    LowerConcat(before + command, after);
    LowerConcat(before, command);
    ContainsInContext(Lower(before), Lower(command), Lower(after), "navigate");
    assert Contains(text, "navigate");
  }
}
