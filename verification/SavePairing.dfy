/** The mail objects and the appended records of a transaction correspond, with or without discipline. */
module SavePairing {
  import opened SaveProtocol

  predicate PairedCtx(c: Ctx) {
    c.mails == c.appended && |c.outcomes| == |c.mails|
  }

  ghost predicate Paired(w: World) {
    forall s :: s in w.sessions ==> PairedCtx(w.sessions[s])
  }

  /** `w'` has the sessions of `w`, except that `s` may be gone or have another paired context. */
  ghost predicate StillPaired(w: World, w': World, s: Sid) {
    && (forall t :: t in w'.sessions && t != s ==> t in w.sessions && w'.sessions[t] == w.sessions[t])
    && (s in w'.sessions ==> PairedCtx(w'.sessions[s]))
  }

  lemma SavePaired(w: World, s: Sid, c: Ctx, a: Action)
    requires PairedCtx(c) && Allowed(w, c, a) && IsSave(a)
    ensures StillPaired(w, Apply(w, s, c, a), s)
  {
    match a
    case Begin(_, _) =>
    case Continue(_, _) =>
    case Finish(_, _, _, _) =>
    case WriteChunk(_) =>
    case FinishEnd(_) =>
    case Cancel =>
    case Copy(_, _, _) =>
  }

  lemma EndPaired(w: World, s: Sid, c: Ctx, a: Action)
    requires PairedCtx(c) && Allowed(w, c, a) && !IsSave(a)
    ensures StillPaired(w, Apply(w, s, c, a), s)
  {
    match a
    case CommitPre(_, _) =>
    case AssignUid(_) =>
    case Publish(_) =>
    case SyncFinish(_) =>
    case Remove(_) =>
    case EndSync =>
    case Clean(_) =>
    case EndClean =>
    case Rollback =>
    case Crash =>
  }

  lemma StepPaired(w: World, e: Event)
    requires Paired(w) && Enabled(w, e)
    ensures Paired(Step(w, e))
  {
    if e.Act? {
      if IsSave(e.a) { SavePaired(w, e.s, w.sessions[e.s], e.a); } else { EndPaired(w, e.s, w.sessions[e.s], e.a); }
    }
  }

  /** In every run whatsoever the i-th mail object belongs to the i-th appended record, so UID assignment
      finds one UID per mail object and none left over. */
  lemma {:induction false} MailsMatchRecords(t: Run, i: nat)
    requires Paired(t.ws[0]) && i <= |t.es|
    ensures Paired(t.ws[i])
  {
    if i > 0 {
      MailsMatchRecords(t, i - 1);
      assert Linked(t, i - 1);
      StepPaired(t.ws[i - 1], t.es[i - 1]);
    }
  }
}
