// The administrative firewall commands as they run, step by step (scripts/device-access.py): each does what its
// specification in Firewall says.
module FirewallMachine {
  import opened Firewall
  import opened Protocol

  class Administrator {
    var rules: map<Scope, Rule>
    var others: seq<set<nat>>
    var journal: Option<seq<Entry>>
    var luck: seq<Luck>

    function View(): Host
      reads this
    {
      Host(rules, others, journal, luck)
    }

    /** What an invocation did: the specification's state, and whether it got through. */
    ghost predicate Did(t: Turn, ok: bool)
      reads this
    {
      View() == t.h && ok == t.Good?
    }

    method Draw() returns (l: Luck)
      modifies this`luck
      ensures l == Next(old(luck)) && luck == Rest(old(luck))
    {
      l, luck := Next(luck), Rest(luck);
    }

    method Inventory() returns (ok: bool)
      modifies this`luck
      ensures Did(Look(old(View())), ok)
    {
      var l := Draw();
      ok := l == Done;
    }

    method SaveJournal(entries: seq<Entry>) returns (ok: bool)
      modifies this
      ensures Did(Save(old(View()), entries), ok)
    {
      var l := Draw();
      if l != FailedBefore {
        journal := Some(entries);
      }
      ok := l == Done;
    }

    method RunAllow(e: Entry) returns (ok: bool)
      modifies this
      ensures Did(AllowRule(old(View()), e), ok)
    {
      var l := Draw();
      if l != FailedBefore {
        rules := rules[e.plan := Rule(Allow, Some(e.tag), false, {e.tag})];
      }
      ok := l == Done;
    }

    method RunDelete(e: Entry) returns (ok: bool)
      modifies this
      ensures Did(DeleteRule(old(View()), e), ok)
    {
      var l := Draw();
      if l != FailedBefore {
        rules := rules - {e.plan};
      }
      ok := l == Done;
    }

    method CreateRule(plan: Scope, tag: nat) returns (ok: bool)
      modifies this
      ensures Did(Create(old(View()), plan, tag), ok)
    {
      hide Owned, Claim;
      var entries := Entries(View());
      var entry := EntryFor(entries, plan, tag);
      ok := SaveJournal(Claim(entries, plan, tag, Pending));
      if !ok { return; }
      ok := RunAllow(entry);
      if !ok { return; }
      ok := Inventory();
      if !ok { return; }
      if Owned(View(), entry) != Yes {
        return false;
      }
      ok := SaveJournal(Claim(entries, plan, tag, Installed));
    }

    method Install(plan: Scope, tag: nat) returns (ok: bool)
      modifies this
      ensures Did(Firewall.Install(old(View()), plan, tag), ok)
    {
      hide Owned, Claim, Create;
      var entries := Entries(View());
      if !ValidJournal(entries) {
        return false;
      }
      ok := Inventory();
      if !ok { return; }
      var i := IndexOf(entries, plan);
      var ownership := if i < |entries| then Owned(View(), entries[i]) else No;
      match ownership
      case Drift => return false;
      case Yes => ok := SaveJournal(Claim(entries, plan, tag, Installed));
      case No =>
        if plan in rules {
          return i == |entries| && rules[plan].action == Allow;
        }
        if i == |entries| && |entries| >= JOURNAL_LIMIT {
          return false;
        }
        ok := CreateRule(plan, tag);
    }

    method RemoveEntry(e: Entry) returns (ok: bool)
      modifies this
      ensures Did(RemoveOne(old(View()), e), ok)
    {
      hide Owned, Without;
      match Owned(View(), e)
      case Drift => return false;
      case No => ok := SaveJournal(Without(Entries(View()), e));
      case Yes =>
        ok := RunDelete(e);
        if !ok { return; }
        ok := Inventory();
        if !ok { return; }
        if Owned(View(), e) != No {
          return false;
        }
        ok := SaveJournal(Without(Entries(View()), e));
    }

    method RemoveEntries(selected: seq<Entry>) returns (ok: bool)
      modifies this
      ensures Did(RemoveEach(old(View()), selected), ok)
    {
      hide RemoveOne;
      ghost var start := View();
      for k := 0 to |selected|
        invariant Did(RemoveEach(start, selected[..k]), true)
      {
        assert selected[..k + 1][..k] == selected[..k];
        var removed := RemoveEntry(selected[k]);
        if !removed {
          RemoveStops(start, selected, k + 1);
          return false;
        }
      }
      assert selected[..|selected|] == selected;
      return true;
    }

    method Remove(plan: Option<Scope>) returns (ok: bool)
      modifies this
      ensures Did(Firewall.Remove(old(View()), plan), ok)
    {
      hide Owned, Undrifted, RemoveEach, ValidJournal, Selection;
      var entries := Entries(View());
      if !ValidJournal(entries) {
        return false;
      }
      ok := Inventory();
      if !ok { return; }
      var selected := Selection(entries, plan);
      for k := 0 to |selected|
        invariant forall i :: 0 <= i < k ==> Undrifted(View(), selected[i])
      {
        if !Undrifted(View(), selected[k]) {
          return false;
        }
      }
      ok := RemoveEntries(selected);
      if !ok { return; }
      ok := UnlinkJournal();
    }

    method UnlinkJournal() returns (ok: bool)
      modifies this
      ensures Did(Unlink(old(View())), ok)
    {
      if Entries(View()) != [] || journal.None? {
        return true;
      }
      var l := Draw();
      if l != FailedBefore {
        journal := None;
      }
      ok := l == Done;
    }
  }

  lemma {:induction false} RemoveStops(h: Host, selected: seq<Entry>, upTo: nat)
    requires upTo <= |selected| && RemoveEach(h, selected[..upTo]).Bad?
    ensures RemoveEach(h, selected) == RemoveEach(h, selected[..upTo])
    decreases |selected| - upTo
  {
    if upTo == |selected| {
      assert selected[..upTo] == selected;
    } else {
      assert selected[..upTo + 1][..upTo] == selected[..upTo];
      RemoveStops(h, selected, upTo + 1);
    }
  }
}
