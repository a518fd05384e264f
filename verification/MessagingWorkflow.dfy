/** `MessagingWorkflow`: the blocks under its state lock, each one a run of fencing steps. */
module MessagingWorkflow {
  import opened Workflow

  datatype ClearOutcome = Cleared | ReadFailed | TreeFailed

  ghost function ClearRun(st: State, scope: Scope, ok: bool, removed: set<MessageId>): State {
    Next(Next(Next(st, BeginClear(scope)), CommitClear), EndClear(ok, removed))
  }

  lemma ClearRunEffect(st: State, scope: Scope, ok: bool, removed: set<MessageId>)
    requires Inv(st) && st.holder.Free?
    ensures var after := ClearRun(st, scope, ok, removed);
      && Inv(after) && after.holder.Free? && after.stopGeneration == st.stopGeneration && after.messages == st.messages
      && after.clearGenerations == st.clearGenerations[scope := Generation(st.clearGenerations, scope) + 1]
      && after.tree == if ok then ClearScope(st.messages, st.tree, scope) else st.tree - removed
  {
    var reading := Next(st, BeginClear(scope));
    StepInv(st, BeginClear(scope));
    StepInv(reading, CommitClear);
    StepInv(Next(reading, CommitClear), EndClear(ok, removed));
  }

  class MessagingWorkflow {
    var stopGeneration: nat
    var clearGenerations: map<Scope, nat>
    var messages: map<MessageId, Message>
    var tree: map<MessageId, bool>
    ghost var st: State

    constructor ()
      ensures Valid() && st == Init()
    {
      stopGeneration, clearGenerations, messages, tree, st := 0, map[], map[], map[], Init();
    }

    ghost predicate Valid()
      reads this
    {
      && st.stopGeneration == stopGeneration && st.clearGenerations == clearGenerations
      && st.messages == messages && st.tree == tree && st.holder.Free? && Inv(st)
    }

    function CurrentToken(scope: Scope): Token
      reads this
    {
      Token(stopGeneration, Generation(clearGenerations, scope))
    }

    /** `handle_message`: the token is captured under the lock. */
    method HandleMessage(m: MessageId, scope: Scope) returns (token: Token)
      requires Valid() && m !in messages
      modifies this`messages, this`st
      ensures Valid() && st == Next(old(st), Receive(m, scope))
      ensures m in messages && messages[m] == Message(scope, token) && token == CurrentToken(scope)
    {
      StepInv(st, Receive(m, scope));
      token := CurrentToken(scope);
      messages := messages[m := Message(scope, token)];
      st := Next(st, Receive(m, scope));
    }

    /** `_admit_if_current`; `accepted` is the tree queue's own decision. */
    method AdmitIfCurrent(m: MessageId, accepted: bool) returns (admitted: bool)
      requires Valid() && m in messages
      modifies this`tree, this`st
      ensures Valid() && admitted == (messages[m].token == CurrentToken(messages[m].scope) && accepted)
      ensures tree == if admitted then old(tree)[m := true] else old(tree)
      ensures st == if messages[m].token == CurrentToken(messages[m].scope)
                    then Next(Next(old(st), BeginAdmit(m)), EndAdmit(accepted)) else old(st)
    {
      if messages[m].token != CurrentToken(messages[m].scope) { return false; }
      StepInv(st, BeginAdmit(m));
      StepInv(Next(st, BeginAdmit(m)), EndAdmit(accepted));
      st := Next(Next(st, BeginAdmit(m)), EndAdmit(accepted));
      if accepted { tree := tree[m := true]; }
      admitted := accepted;
    }

    /** `_stop_all_tasks`: after a stop whose cancellation returned, nothing is live. */
    method StopAllTasks(ok: bool, cancelled: set<MessageId>)
      requires Valid()
      modifies this`stopGeneration, this`tree, this`st
      ensures Valid() && st == Next(Next(old(st), BeginStop), EndStop(ok, cancelled))
      ensures stopGeneration == old(stopGeneration) + 1 && tree.Keys == old(tree).Keys
      ensures ok ==> forall m <- tree :: !tree[m]
    {
      StepInv(st, BeginStop);
      StepInv(Next(st, BeginStop), EndStop(ok, cancelled));
      st := Next(Next(st, BeginStop), EndStop(ok, cancelled));
      stopGeneration := stopGeneration + 1;
      tree := if ok then CancelAll(tree) else CancelIn(tree, cancelled);
    }

    /** `_clear_chat`: a read that fails leaves everything as it was; past the reads the
        generation advances whatever happens to the tree. */
    method ClearChat(scope: Scope, readable: bool, ok: bool, removed: set<MessageId>) returns (outcome: ClearOutcome)
      requires Valid()
      modifies this`clearGenerations, this`tree, this`st
      ensures Valid() && outcome == if !readable then ReadFailed else if ok then Cleared else TreeFailed
      ensures outcome.ReadFailed? ==> clearGenerations == old(clearGenerations) && tree == old(tree)
      ensures !outcome.ReadFailed? ==> clearGenerations == old(clearGenerations)[scope := Generation(old(clearGenerations), scope) + 1]
      ensures outcome.Cleared? ==> forall m <- old(tree) :: m in tree <==> m in messages && messages[m].scope != scope
      ensures outcome.Cleared? ==> tree.Keys <= old(tree).Keys && forall m <- tree :: tree[m] == old(tree)[m]
      ensures !outcome.ReadFailed? ==> st == ClearRun(old(st), scope, ok, removed)
    {
      if !readable { return ReadFailed; }
      assert forall m <- tree :: NodeOk(st, m);
      ClearRunEffect(st, scope, ok, removed);
      tree := if ok then ClearScope(messages, tree, scope) else tree - removed;
      clearGenerations := clearGenerations[scope := Generation(clearGenerations, scope) + 1];
      st := ClearRun(st, scope, ok, removed);
      outcome := if ok then Cleared else TreeFailed;
    }
  }
}
