/**
 * The outside world of the build script, made abstract. A `Host` answers every command, every
 * chained command list, every existence check and every copy by consulting an oracle that may
 * depend on everything that happened before. A run is told the history so far and returns
 * the events it adds, each recorded with its answer. This stands for the `run.Run`
 * collaborator, `os.path.exists` and `shutil.copy`.
 */
module World {

  /** What `run.Run.run` returns for one command: `(stdout, stderr, exit code)`. */
  datatype Reply = Reply(stdout: string, stderr: string, exit: int)

  /** A chained run returns a non-empty list of replies; how many is up to the runner. */
  type Replies = rs: seq<Reply> | |rs| > 0 witness [Reply("", "", 0)]

  /** A command as an argument vector, or as one line for the shell. */
  datatype Cmd = Argv(args: seq<string>) | ShellLine(line: string)

  datatype Event =
    | Probe(path: string, found: bool)
    | Exec(cmd: Cmd, reply: Reply)
    | Chain(cmds: seq<Cmd>, replies: Replies)
    | Copy(src: string, dst: string, ok: bool)

  /** A chained run is judged by the exit code of its last reply. */
  predicate LastSucceeded(rs: Replies) {
    rs[|rs| - 1].exit == 0
  }

  /** The events of consecutive segments, in order. */
  function Concat(segs: seq<seq<Event>>): seq<Event> {
    if segs == [] then [] else Concat(segs[..|segs| - 1]) + segs[|segs| - 1]
  }

  lemma ConcatAppend(segs: seq<seq<Event>>, s: seq<Event>)
    ensures Concat(segs + [s]) == Concat(segs) + s
  {
    assert (segs + [s])[..|segs|] == segs;
  }

  /** The answers of the outside world: the reply to a command, the replies to a chained
      list, whether a path exists, and whether a copy succeeds, each given everything that
      happened before. */
  datatype Host = Host(
    reply: (seq<Event>, Cmd) -> Reply,
    chain: (seq<Event>, seq<Cmd>) -> Replies,
    present: (seq<Event>, string) -> bool,
    copies: (seq<Event>, string, string) -> bool)

  /** The answer recorded in `e` is the one the host gives after `before`. */
  ghost predicate Answered(h: Host, before: seq<Event>, e: Event) {
    match e
    case Probe(p, found) => found == h.present(before, p)
    case Exec(c, r) => r == h.reply(before, c)
    case Chain(cs, rs) => rs == h.chain(before, cs)
    case Copy(src, dst, ok) => ok == h.copies(before, src, dst)
  }

  /** Every answer in `seg` is the host's answer, given the history `t` and the earlier events
      of `seg`. */
  ghost predicate Faithful(h: Host, t: seq<Event>, seg: seq<Event>)
    decreases |seg|
  {
    seg == [] || (Answered(h, t, seg[0]) && Faithful(h, t + [seg[0]], seg[1..]))
  }

  lemma {:induction false} FaithfulSnoc(h: Host, t: seq<Event>, seg: seq<Event>, e: Event)
    requires Faithful(h, t, seg) && Answered(h, t + seg, e)
    ensures Faithful(h, t, seg + [e])
    decreases |seg|
  {
    if seg == [] {
      assert t + seg == t;
      assert (seg + [e])[1..] == [];
    } else {
      var t1 := t + [seg[0]];
      assert t1 + seg[1..] == t + seg;
      FaithfulSnoc(h, t1, seg[1..], e);
      assert (seg + [e])[1..] == seg[1..] + [e];
    }
  }

  /** A faithful transcript followed by one that is faithful after it is faithful. */
  lemma {:induction false} FaithfulAppend(h: Host, t: seq<Event>, a: seq<Event>, b: seq<Event>)
    requires Faithful(h, t, a) && Faithful(h, t + a, b)
    ensures Faithful(h, t, a + b)
    decreases |a|
  {
    if a == [] {
      assert a + b == b && t + a == t;
    } else {
      var t1 := t + [a[0]];
      assert t1 + a[1..] == t + a;
      FaithfulAppend(h, t1, a[1..], b);
      assert (a + b)[0] == a[0];
      assert (a + b)[1..] == a[1..] + b;
    }
  }

  /** `os.path.exists(p)`, asked after `t + seg`; the new transcript records the answer. */
  method Exists(h: Host, t: seq<Event>, seg: seq<Event>, p: string) returns (found: bool, seg': seq<Event>)
    requires Faithful(h, t, seg)
    ensures found == h.present(t + seg, p)
    ensures seg' == seg + [Probe(p, found)] && Faithful(h, t, seg')
  {
    found := h.present(t + seg, p);
    FaithfulSnoc(h, t, seg, Probe(p, found));
    seg' := seg + [Probe(p, found)];
  }

  /** Runs one command and waits for it. */
  method Run(h: Host, t: seq<Event>, seg: seq<Event>, c: Cmd) returns (r: Reply, seg': seq<Event>)
    requires Faithful(h, t, seg)
    ensures r == h.reply(t + seg, c)
    ensures seg' == seg + [Exec(c, r)] && Faithful(h, t, seg')
  {
    r := h.reply(t + seg, c);
    FaithfulSnoc(h, t, seg, Exec(c, r));
    seg' := seg + [Exec(c, r)];
  }

  /** Runs a list of commands as a unit (`run(list, True)`). */
  method RunChain(h: Host, t: seq<Event>, seg: seq<Event>, cs: seq<Cmd>) returns (rs: Replies, seg': seq<Event>)
    requires Faithful(h, t, seg)
    ensures rs == h.chain(t + seg, cs)
    ensures seg' == seg + [Chain(cs, rs)] && Faithful(h, t, seg')
  {
    rs := h.chain(t + seg, cs);
    FaithfulSnoc(h, t, seg, Chain(cs, rs));
    seg' := seg + [Chain(cs, rs)];
  }

  /** `shutil.copy(src, dst)`; `ok` is false when it raised. */
  method CopyFile(h: Host, t: seq<Event>, seg: seq<Event>, src: string, dst: string) returns (ok: bool, seg': seq<Event>)
    requires Faithful(h, t, seg)
    ensures ok == h.copies(t + seg, src, dst)
    ensures seg' == seg + [Copy(src, dst, ok)] && Faithful(h, t, seg')
  {
    ok := h.copies(t + seg, src, dst);
    FaithfulSnoc(h, t, seg, Copy(src, dst, ok));
    seg' := seg + [Copy(src, dst, ok)];
  }
}
