// The firewall rules the program owns, and the journal with which it survives crashes (scripts/device-access.py).
module Firewall {
  import opened Protocol

  /** What a rule is about. */
  datatype Scope = Scope(peer: string, local: string, interface: string, port: nat)

  datatype Action = Allow | Deny | Reject | Limit

  /** A live rule: what it does, the generated tag that is its whole comment, whether it logs, and every generated tag
      its line mentions. The firewall keeps one rule per scope. */
  datatype Rule = Rule(action: Action, comment: Option<nat>, logs: bool, tags: set<nat>)

  datatype Status = Pending | Installed

  datatype Entry = Entry(plan: Scope, tag: nat, status: Status)

  const JOURNAL_LIMIT := 128

  /** The live rules, the tags mentioned by lines that cannot be read as rules, the journal file, and how the next
      commands and writes turn out. */
  datatype Host = Host(rules: map<Scope, Rule>, others: seq<set<nat>>, journal: Option<seq<Entry>>, luck: seq<Luck>)

  datatype Reply = Managed(already: bool) | Unmanaged | Removed

  /** How far an invocation got; a failure leaves whatever had been done. */
  datatype Turn = Good(h: Host, reply: Reply) | Bad(h: Host) {
    predicate IsFailure() {
      Bad?
    }
    function PropagateFailure(): Turn
      requires Bad?
    {
      this
    }
    function Extract(): Host
      requires Good?
    {
      h
    }
  }

  function Entries(h: Host): seq<Entry> {
    if h.journal.None? then [] else h.journal.value
  }

  /** The check made whenever the journal is read. */
  predicate ValidJournal(entries: seq<Entry>) {
    && |entries| <= JOURNAL_LIMIT
    && (forall i, j :: 0 <= i < j < |entries| ==> entries[i].plan != entries[j].plan)
    && (forall i, j :: 0 <= i < j < |entries| ==> entries[i].tag != entries[j].tag)
  }

  function IndexOf(entries: seq<Entry>, plan: Scope): (i: nat)
    ensures i <= |entries|
    ensures i < |entries| ==> entries[i].plan == plan
    ensures forall k :: 0 <= k < i ==> entries[k].plan != plan
  {
    if entries == [] then 0 else if entries[0].plan == plan then 0 else 1 + IndexOf(entries[1..], plan)
  }

  predicate Mentioned(h: Host, tag: nat) {
    (exists k :: k in h.rules && tag in h.rules[k].tags) || (exists i :: 0 <= i < |h.others| && tag in h.others[i])
  }

  datatype Ownership = No | Yes | Drift

  /** Whether the entry's rule is there, unchanged; anything else that mentions its tag is drift. */
  function Owned(h: Host, e: Entry): Ownership {
    if !Mentioned(h, e.tag) then No
    else if e.plan in h.rules && h.rules[e.plan] == Rule(Allow, Some(e.tag), false, h.rules[e.plan].tags)
            && e.tag in h.rules[e.plan].tags
            && (forall k :: k in h.rules && k != e.plan ==> e.tag !in h.rules[k].tags)
            && (forall i :: 0 <= i < |h.others| ==> e.tag !in h.others[i])
    then Yes else Drift
  }

  // ---- Commands and writes ----

  function Spent(h: Host): Host {
    h.(luck := Rest(h.luck))
  }

  function Look(h: Host): Turn {
    if Next(h.luck) == Done then Good(Spent(h), Unmanaged) else Bad(Spent(h))
  }

  /** A command or write: it may fail before or after taking effect. */
  function Tried(h: Host, effect: Host): Turn {
    match Next(h.luck)
    case Done => Good(Spent(effect), Unmanaged)
    case FailedBefore => Bad(Spent(h))
    case FailedAfter => Bad(Spent(effect))
  }

  function Save(h: Host, entries: seq<Entry>): Turn {
    Tried(h, h.(journal := Some(entries)))
  }

  /** The firewall replaces an equal rule's comment, and any rule of the same scope. */
  function AllowRule(h: Host, e: Entry): Turn {
    Tried(h, h.(rules := h.rules[e.plan := Rule(Allow, Some(e.tag), false, {e.tag})]))
  }

  function DeleteRule(h: Host, e: Entry): Turn {
    Tried(h, h.(rules := h.rules - {e.plan}))
  }

  function Unlink(h: Host): Turn {
    if Entries(h) == [] && h.journal.Some? then Tried(h, h.(journal := None)) else Good(h, Unmanaged)
  }

  // ---- Installing ----

  function Claim(entries: seq<Entry>, plan: Scope, tag: nat, status: Status): seq<Entry> {
    var i := IndexOf(entries, plan);
    if i < |entries| then entries[i := entries[i].(status := status)] else entries + [Entry(plan, tag, status)]
  }

  function EntryFor(entries: seq<Entry>, plan: Scope, tag: nat): Entry {
    var i := IndexOf(entries, plan);
    if i < |entries| then entries[i] else Entry(plan, tag, Pending)
  }

  /** Journal first, then the rule, then the confirmation. */
  function Create(h: Host, plan: Scope, tag: nat): Turn {
    var entries := Entries(h);
    var entry := EntryFor(entries, plan, tag);
    var noted :- Save(h, Claim(entries, plan, tag, Pending));
    var added :- AllowRule(noted, entry);
    var checked :- Look(added);
    if Owned(checked, entry) != Yes then Bad(checked)
    else
      var done :- Save(checked, Claim(entries, plan, tag, Installed));
      Good(done, Managed(false))
  }

  function Install(h: Host, plan: Scope, tag: nat): Turn {
    var entries := Entries(h);
    if !ValidJournal(entries) then Bad(h)
    else
      var seen :- Look(h);
      var i := IndexOf(entries, plan);
      var ownership := if i < |entries| then Owned(seen, entries[i]) else No;
      if ownership == Drift then Bad(seen)
      else if ownership == Yes then
        var done :- Save(seen, Claim(entries, plan, tag, Installed));
        Good(done, Managed(true))
      else if plan in seen.rules then
        if i < |entries| || seen.rules[plan].action != Allow then Bad(seen) else Good(seen, Unmanaged)
      else if i == |entries| && |entries| >= JOURNAL_LIMIT then Bad(seen)
      else Create(seen, plan, tag)
  }

  // ---- Removing ----

  /** The entries that an invocation is about: those of one plan, or all. */
  predicate Picked(plan: Option<Scope>, e: Entry) {
    plan.None? || plan.value == e.plan
  }

  function Selection(entries: seq<Entry>, plan: Option<Scope>): seq<Entry> {
    if entries == [] then []
    else (if Picked(plan, entries[0]) then [entries[0]] else []) + Selection(entries[1..], plan)
  }

  /** Nothing is touched while the rule of a selected entry drifted, or another rule took its place. */
  predicate Undrifted(h: Host, e: Entry) {
    Owned(h, e) == Yes || (Owned(h, e) == No && e.plan !in h.rules)
  }

  function Without(entries: seq<Entry>, e: Entry): seq<Entry> {
    var i := IndexOf(entries, e.plan);
    if i < |entries| then entries[..i] + entries[i + 1..] else entries
  }

  /** Deleting one entry's rule, if it is there, and only then the entry. */
  function RemoveOne(h: Host, e: Entry): Turn {
    match Owned(h, e)
    case Drift => Bad(h)
    case No => Save(h, Without(Entries(h), e))
    case Yes =>
      var deleted :- DeleteRule(h, e);
      var looked :- Look(deleted);
      if Owned(looked, e) != No then Bad(looked) else Save(looked, Without(Entries(looked), e))
  }

  function RemoveEach(h: Host, selected: seq<Entry>): Turn
    decreases |selected|
  {
    if selected == [] then Good(h, Removed)
    else
      var before :- RemoveEach(h, selected[..|selected| - 1]);
      RemoveOne(before, selected[|selected| - 1])
  }

  function Remove(h: Host, plan: Option<Scope>): Turn {
    var entries := Entries(h);
    if !ValidJournal(entries) then Bad(h)
    else
      var seen :- Look(h);
      var selected := Selection(entries, plan);
      if !(forall i :: 0 <= i < |selected| ==> Undrifted(seen, selected[i])) then Bad(seen)
      else
        var removed :- RemoveEach(seen, selected);
        var done :- Unlink(removed);
        Good(done, Removed)
  }

  // ---- What always holds ----

  ghost predicate Journaled(h: Host, tag: nat) {
    exists i :: 0 <= i < |Entries(h)| && Entries(h)[i].tag == tag
  }

  /** Every rule that carries a generated tag has a journal entry. */
  ghost predicate Accounted(h: Host) {
    ValidJournal(Entries(h)) && forall tag :: Mentioned(h, tag) ==> Journaled(h, tag)
  }

  /** Tags are drawn at random and never repeat. */
  ghost predicate NewTag(h: Host, tag: nat) {
    !Mentioned(h, tag) && !Journaled(h, tag)
  }

  // ---- Rules of others are never touched ----

  /** Installing adds at most its own rule, in a place where there was none. */
  ghost predicate OnlyAdds(h: Host, after: Host, plan: Scope) {
    && after.others == h.others
    && (after.rules == h.rules
        || (plan !in h.rules && plan in after.rules && after.rules == h.rules[plan := after.rules[plan]]
            && after.rules[plan].comment.Some? && after.rules[plan].tags == {after.rules[plan].comment.value}))
  }

  lemma CreateOnlyAdds(h: Host, plan: Scope, tag: nat)
    requires plan !in h.rules
    ensures OnlyAdds(h, Create(h, plan, tag).h, plan)
  {
    hide Owned, Claim;
    var entry := EntryFor(Entries(h), plan, tag);
    var noted := Save(h, Claim(Entries(h), plan, tag, Pending));
    if noted.Good? {
      var added := AllowRule(noted.h, entry);
      if added.Good? {
        var checked := Look(added.h);
        assert checked.h.rules == h.rules[plan := Rule(Allow, Some(entry.tag), false, {entry.tag})];
      }
    }
  }

  lemma InstallOnlyAdds(h: Host, plan: Scope, tag: nat)
    ensures OnlyAdds(h, Install(h, plan, tag).h, plan)
  {
    hide Owned, ValidJournal, Create, Claim;
    var seen := Spent(h);
    if plan !in h.rules {
      CreateOnlyAdds(seen, plan, tag);
    }
  }

  // ---- Installing survives failures ----

  lemma ClaimKeeps(entries: seq<Entry>, plan: Scope, tag: nat, status: Status)
    requires ValidJournal(entries)
    requires IndexOf(entries, plan) == |entries| ==>
               |entries| < JOURNAL_LIMIT && forall i :: 0 <= i < |entries| ==> entries[i].tag != tag
    ensures var claimed := Claim(entries, plan, tag, status);
            && ValidJournal(claimed) && |claimed| >= |entries|
            && (forall i :: 0 <= i < |entries| ==>
                  claimed[i].plan == entries[i].plan && claimed[i].tag == entries[i].tag)
            && IndexOf(claimed, plan) == IndexOf(entries, plan) < |claimed|
            && claimed[IndexOf(claimed, plan)].tag == EntryFor(entries, plan, tag).tag
            && claimed[IndexOf(claimed, plan)].status == status
  {
    var claimed := Claim(entries, plan, tag, status);
    var i := IndexOf(entries, plan);
    assert claimed[i].plan == plan;
    assert forall k :: 0 <= k < i ==> claimed[k].plan == entries[k].plan;
  }

  lemma JournaledAfter(h: Host, after: Host, tag: nat)
    requires Journaled(h, tag) && |Entries(after)| >= |Entries(h)|
    requires forall i :: 0 <= i < |Entries(h)| ==> Entries(after)[i].tag == Entries(h)[i].tag
    ensures Journaled(after, tag)
  {
    var i :| 0 <= i < |Entries(h)| && Entries(h)[i].tag == tag;
    assert Entries(after)[i].tag == tag;
  }

  /** The journal took the plan in, and nothing else changed yet. */
  lemma ClaimAccounted(h: Host, plan: Scope, tag: nat, status: Status, after: Host)
    requires Accounted(h) && NewTag(h, tag)
    requires IndexOf(Entries(h), plan) == |Entries(h)| ==> |Entries(h)| < JOURNAL_LIMIT
    requires after == h.(journal := Some(Claim(Entries(h), plan, tag, status)), luck := after.luck)
    ensures Accounted(after) && Journaled(after, EntryFor(Entries(h), plan, tag).tag)
  {
    hide Mentioned, ValidJournal;
    assert forall i :: 0 <= i < |Entries(h)| ==> Entries(h)[i].tag != tag;
    ClaimKeeps(Entries(h), plan, tag, status);
    forall t | Mentioned(after, t) ensures Journaled(after, t) {
      SameMentions(h, after, t);
      JournaledAfter(h, after, t);
    }
  }

  lemma SameMentions(h: Host, after: Host, tag: nat)
    requires after.rules == h.rules && after.others == h.others
    ensures Mentioned(after, tag) == Mentioned(h, tag)
    ensures forall e :: Owned(after, e) == Owned(h, e)
  {
  }

  lemma AddedAccounted(h: Host, e: Entry, after: Host)
    requires Accounted(h) && Journaled(h, e.tag) && e.plan !in h.rules
    requires after == h.(rules := h.rules[e.plan := Rule(Allow, Some(e.tag), false, {e.tag})], luck := after.luck)
    ensures Accounted(after)
    ensures !Mentioned(h, e.tag) ==> Owned(after, e) == Yes
  {
    forall t | Mentioned(after, t) ensures Journaled(after, t) {
      if t != e.tag {
        assert Mentioned(h, t);
      }
      JournaledAfter(h, after, t);
    }
    if !Mentioned(h, e.tag) {
      assert e.plan in after.rules && e.tag in after.rules[e.plan].tags;
    }
  }

  /** This plan can be installed: its rule is owned and unchanged, or missing with nothing in its place. */
  ghost predicate Installable(h: Host, plan: Scope) {
    var entries := Entries(h);
    var i := IndexOf(entries, plan);
    Accounted(h)
    && if i < |entries| then Undrifted(h, entries[i]) else plan !in h.rules && |entries| < JOURNAL_LIMIT
  }

  /** The plan is in the journal under this tag, and its rule is owned and unchanged, or missing. */
  ghost predicate Claimed(h: Host, plan: Scope, tag: nat) {
    var entries := Entries(h);
    var i := IndexOf(entries, plan);
    Accounted(h) && i < |entries| && entries[i].tag == tag && Undrifted(h, Entry(plan, tag, Pending))
  }

  lemma StatusDoesNotMatter(h: Host, e: Entry, status: Status)
    ensures Owned(h, e) == Owned(h, e.(status := status))
  {
  }

  lemma ClaimedIsInstallable(h: Host, plan: Scope, tag: nat)
    requires Claimed(h, plan, tag)
    ensures Installable(h, plan)
  {
    hide Owned, Accounted;
    StatusDoesNotMatter(h, Entries(h)[IndexOf(Entries(h), plan)], Pending);
  }

  /** The journal lists the same plans under the same tags. */
  predicate SameEntries(entries: seq<Entry>, after: seq<Entry>) {
    |entries| == |after|
    && forall i :: 0 <= i < |entries| ==> after[i].plan == entries[i].plan && after[i].tag == entries[i].tag
  }

  lemma SameClaimed(h: Host, after: Host, plan: Scope, tag: nat)
    requires Claimed(h, plan, tag) && after.rules == h.rules && after.others == h.others
    requires SameEntries(Entries(h), Entries(after))
    ensures Claimed(after, plan, tag)
  {
    hide Owned, Mentioned;
    SameMentions(h, after, tag);
    var i := IndexOf(Entries(h), plan);
    assert Entries(after)[i].plan == plan;
    assert IndexOf(Entries(after), plan) == i;
    forall t | Mentioned(after, t) ensures Journaled(after, t) {
      SameMentions(h, after, t);
      JournaledAfter(h, after, t);
    }
  }

  lemma OwnedNoIsUnmentioned(h: Host, e: Entry)
    requires Undrifted(h, e) && e.plan !in h.rules
    ensures !Mentioned(h, e.tag)
  {
  }

  lemma ClaimSame(entries: seq<Entry>, plan: Scope, tag: nat)
    ensures SameEntries(Claim(entries, plan, tag, Pending), Claim(entries, plan, tag, Installed))
  {
  }

  /** Noting the plan in the journal. */
  lemma NotedIsClaimed(h: Host, plan: Scope, tag: nat, after: Host)
    requires Installable(h, plan) && NewTag(h, tag) && plan !in h.rules
    requires after == h.(journal := Some(Claim(Entries(h), plan, tag, Pending)), luck := after.luck)
    ensures Claimed(after, plan, EntryFor(Entries(h), plan, tag).tag)
    ensures !Mentioned(after, EntryFor(Entries(h), plan, tag).tag)
  {
    hide Mentioned, Claim, Journaled, Owned, ValidJournal;
    var entry := EntryFor(Entries(h), plan, tag);
    ClaimAccounted(h, plan, tag, Pending, after);
    Unclaimed(h, tag);
    ClaimKeeps(Entries(h), plan, tag, Pending);
    if IndexOf(Entries(h), plan) < |Entries(h)| {
      OwnedNoIsUnmentioned(h, entry);
    }
    SameMentions(h, after, entry.tag);
    UnmentionedIsNo(after, Entry(plan, entry.tag, Pending));
  }

  lemma Unclaimed(h: Host, tag: nat)
    requires !Journaled(h, tag)
    ensures forall i :: 0 <= i < |Entries(h)| ==> Entries(h)[i].tag != tag
  {
  }

  lemma UnmentionedIsNo(h: Host, e: Entry)
    requires !Mentioned(h, e.tag)
    ensures Owned(h, e) == No
  {
  }

  lemma ClaimedIsJournaled(h: Host, plan: Scope, tag: nat)
    requires Claimed(h, plan, tag)
    ensures Journaled(h, tag) && Accounted(h)
  {
  }

  /** Adding the rule. */
  lemma AddedIsClaimed(h: Host, plan: Scope, tag: nat, after: Host)
    requires Claimed(h, plan, tag) && plan !in h.rules && !Mentioned(h, tag)
    requires after == h.(rules := h.rules[plan := Rule(Allow, Some(tag), false, {tag})], luck := after.luck)
    ensures Claimed(after, plan, tag) && Owned(after, Entry(plan, tag, Pending)) == Yes
  {
    hide Mentioned, Owned, Journaled;
    ClaimedIsJournaled(h, plan, tag);
    AddedAccounted(h, Entry(plan, tag, Pending), after);
  }

  /** The result of an installation: exactly one owned rule, and a confirmed journal entry. */
  ghost predicate InstalledNow(h: Host, plan: Scope) {
    var entries := Entries(h);
    var i := IndexOf(entries, plan);
    Accounted(h) && i < |entries| && entries[i].status == Installed && Owned(h, entries[i]) == Yes
  }

  ghost predicate AllDone(luck: seq<Luck>) {
    forall i :: 0 <= i < |luck| ==> luck[i] == Done
  }

  lemma CreateKeeps(h: Host, plan: Scope, tag: nat)
    requires Installable(h, plan) && NewTag(h, tag) && plan !in h.rules
    ensures var t := Create(h, plan, tag);
            && Installable(t.h, plan) && (t.Good? ==> InstalledNow(t.h, plan) && t.reply == Managed(false))
            && (AllDone(h.luck) ==> t.Good?)
  {
    hide ValidJournal, Mentioned, Owned, Claim, Installable, Claimed, InstalledNow, NewTag;
    var entries, entry := Entries(h), EntryFor(Entries(h), plan, tag);
    var noted := h.(journal := Some(Claim(entries, plan, tag, Pending)), luck := Rest(h.luck));
    InstallableFacts(h, plan);
    NotedIsClaimed(h, plan, tag, noted);
    ClaimedIsInstallable(noted, plan, entry.tag);
    LuckAside(h, Spent(h), plan);
    var added := noted.(rules := noted.rules[plan := Rule(Allow, Some(entry.tag), false, {entry.tag})],
                        luck := Rest(noted.luck));
    AddedIsClaimed(noted, plan, entry.tag, added);
    ClaimedIsInstallable(added, plan, entry.tag);
    LuckAside(noted, Spent(noted), plan);
    LuckAside(added, Spent(added), plan);
    var checked := Spent(added);
    SameMentions(added, checked, entry.tag);
    StatusDoesNotMatter(checked, entry, Pending);
    SameClaimed(added, checked, plan, entry.tag);
    var done := checked.(journal := Some(Claim(entries, plan, tag, Installed)), luck := Rest(checked.luck));
    Confirmed(h, plan, tag, checked, done);
    LuckAside(checked, Spent(checked), plan);
  }

  /** How the next calls turn out changes nothing by itself. */
  lemma LuckAside(h: Host, after: Host, plan: Scope)
    requires Installable(h, plan) && after == h.(luck := after.luck)
    ensures Installable(after, plan)
  {
    hide ValidJournal, Mentioned, Owned, Journaled;
    forall t ensures Mentioned(after, t) == Mentioned(h, t) && (Journaled(h, t) ==> Journaled(after, t)) {
      SameMentions(h, after, t);
      if Journaled(h, t) {
        JournaledAfter(h, after, t);
      }
    }
    SameMentions(h, after, 0);
  }

  /** Confirming the entry in the journal. */
  lemma Confirmed(h: Host, plan: Scope, tag: nat, checked: Host, done: Host)
    requires Accounted(h) && NewTag(h, tag)
    requires IndexOf(Entries(h), plan) == |Entries(h)| ==> |Entries(h)| < JOURNAL_LIMIT
    requires var entry := EntryFor(Entries(h), plan, tag);
             && Claimed(checked, plan, entry.tag) && Owned(checked, Entry(plan, entry.tag, Pending)) == Yes
             && Entries(checked) == Claim(Entries(h), plan, tag, Pending)
    requires done == checked.(journal := Some(Claim(Entries(h), plan, tag, Installed)), luck := done.luck)
    ensures Installable(done, plan) && InstalledNow(done, plan)
  {
    hide Mentioned, Owned, Claim, Installable, ValidJournal, Journaled;
    var entry := EntryFor(Entries(h), plan, tag);
    ClaimSame(Entries(h), plan, tag);
    SameClaimed(checked, done, plan, entry.tag);
    ClaimedIsInstallable(done, plan, entry.tag);
    Unclaimed(h, tag);
    ClaimKeeps(Entries(h), plan, tag, Installed);
    SameMentions(checked, done, entry.tag);
    var i := IndexOf(Entries(done), plan);
    StatusDoesNotMatter(done, Entries(done)[i], Pending);
  }

  lemma ClaimAgain(entries: seq<Entry>, plan: Scope, tag: nat)
    requires IndexOf(entries, plan) < |entries|
    ensures SameEntries(entries, Claim(entries, plan, tag, Installed))
  {
  }

  /** The rule was there already: only the journal entry is confirmed. */
  lemma ReconfirmKeeps(h: Host, plan: Scope, tag: nat)
    requires Installable(h, plan) && IndexOf(Entries(h), plan) < |Entries(h)|
    requires Owned(h, Entries(h)[IndexOf(Entries(h), plan)]) == Yes
    ensures var t := Save(h, Claim(Entries(h), plan, tag, Installed));
            Installable(t.h, plan) && (t.Good? ==> InstalledNow(t.h, plan)) && (AllDone(h.luck) ==> t.Good?)
  {
    hide Mentioned, Owned, Claim, Installable, Journaled;
    var i := IndexOf(Entries(h), plan);
    var mine := Entries(h)[i].tag;
    var done := h.(journal := Some(Claim(Entries(h), plan, tag, Installed)), luck := Rest(h.luck));
    InstallableFacts(h, plan);
    ClaimKeeps(Entries(h), plan, tag, Installed);
    ClaimAgain(Entries(h), plan, tag);
    StatusDoesNotMatter(h, Entries(h)[i], Pending);
    assert Claimed(h, plan, mine);
    SameClaimed(h, done, plan, mine);
    ClaimedIsInstallable(done, plan, mine);
    SameMentions(h, done, mine);
    StatusDoesNotMatter(done, Entries(done)[i], Pending);
    LuckAside(h, Spent(h), plan);
  }

  lemma InstallableFacts(h: Host, plan: Scope)
    requires Installable(h, plan)
    ensures Accounted(h) && ValidJournal(Entries(h))
    ensures IndexOf(Entries(h), plan) < |Entries(h)| ==> Undrifted(h, Entries(h)[IndexOf(Entries(h), plan)])
    ensures IndexOf(Entries(h), plan) == |Entries(h)| ==> plan !in h.rules && |Entries(h)| < JOURNAL_LIMIT
  {
  }

  /** An installation, however it fails, leaves the plan installable; and if nothing fails it succeeds, with exactly one
      owned rule and a confirmed entry. */
  lemma InstallConverges(h: Host, plan: Scope, tag: nat)
    requires Installable(h, plan) && NewTag(h, tag)
    ensures var t := Install(h, plan, tag);
            && Installable(t.h, plan)
            && (t.Good? ==> InstalledNow(t.h, plan) && t.reply.Managed?)
            && (AllDone(h.luck) ==> t.Good?)
  {
    hide ValidJournal, Mentioned, Owned, Claim, Installable, InstalledNow, NewTag, Create, Accounted;
    var seen := Spent(h);
    InstallableFacts(h, plan);
    LuckAside(h, seen, plan);
    SameMentions(h, seen, tag);
    var i := IndexOf(Entries(h), plan);
    if Next(h.luck) == Done {
      StillNew(h, seen, tag);
      if i < |Entries(h)| && Owned(seen, Entries(h)[i]) == Yes {
        ReconfirmKeeps(seen, plan, tag);
      } else if plan !in seen.rules {
        CreateKeeps(seen, plan, tag);
      }
    }
  }

  lemma StillNew(h: Host, after: Host, tag: nat)
    requires NewTag(h, tag) && after == h.(luck := after.luck)
    ensures NewTag(after, tag)
  {
    hide Mentioned, Journaled;
    SameMentions(h, after, tag);
    if Journaled(after, tag) {
      JournaledAfter(after, h, tag);
    }
  }

  /** Repeated attempts, each with a tag of its own. */
  function Attempts(h: Host, plan: Scope, tags: seq<nat>): Host {
    if tags == [] then h else Install(Attempts(h, plan, tags[..|tags| - 1]), plan, tags[|tags| - 1]).h
  }

  ghost predicate NewTags(h: Host, plan: Scope, tags: seq<nat>) {
    forall k :: 0 <= k < |tags| ==> NewTag(Attempts(h, plan, tags[..k]), tags[k])
  }

  /** After any number of attempts that failed anywhere, one that does not fail ends with exactly one owned rule. */
  lemma {:induction false} RetryingInstalls(h: Host, plan: Scope, tags: seq<nat>, last: nat)
    requires Installable(h, plan) && NewTags(h, plan, tags)
    requires NewTag(Attempts(h, plan, tags), last) && AllDone(Attempts(h, plan, tags).luck)
    ensures Installable(Attempts(h, plan, tags), plan)
    ensures var t := Install(Attempts(h, plan, tags), plan, last); t.Good? && InstalledNow(t.h, plan)
  {
    hide Install, InstalledNow, Installable, NewTag;
    AttemptsKeep(h, plan, tags);
    InstallConverges(Attempts(h, plan, tags), plan, last);
  }

  lemma {:induction false} AttemptsKeep(h: Host, plan: Scope, tags: seq<nat>)
    requires Installable(h, plan) && NewTags(h, plan, tags)
    ensures Installable(Attempts(h, plan, tags), plan)
    decreases |tags|
  {
    hide Install, InstalledNow, Installable, NewTag;
    if tags != [] {
      var shorter := tags[..|tags| - 1];
      assert forall k :: 0 <= k < |shorter| ==> shorter[..k] == tags[..k];
      AttemptsKeep(h, plan, shorter);
      InstallConverges(Attempts(h, plan, shorter), plan, tags[|tags| - 1]);
    }
  }

  /** Whatever the state of rules and journal, and however an installation fails, every rule that carries a generated
      tag keeps its journal entry. */
  lemma InstallAccounted(h: Host, plan: Scope, tag: nat)
    requires Accounted(h) && NewTag(h, tag)
    ensures Accounted(Install(h, plan, tag).h)
  {
    hide ValidJournal, Owned, Claim, Create, Mentioned, NewTag;
    if Installable(h, plan) {
      InstallConverges(h, plan, tag);
      InstallableFacts(Install(h, plan, tag).h, plan);
    } else {
      SameMentions(h, Spent(h), tag);
      InstallRefuses(h, plan, tag);
      LuckAccounted(h, Spent(h));
    }
  }

  lemma LuckAccounted(h: Host, after: Host)
    requires Accounted(h) && after == h.(luck := after.luck)
    ensures Accounted(after)
  {
    hide Mentioned, Journaled, ValidJournal;
    forall t | Mentioned(after, t) ensures Journaled(after, t) {
      SameMentions(h, after, t);
      JournaledAfter(h, after, t);
    }
  }

  /** What cannot be installed is refused before anything is written. */
  lemma InstallRefuses(h: Host, plan: Scope, tag: nat)
    requires Accounted(h) && !Installable(h, plan)
    ensures var t := Install(h, plan, tag); (t.h == h || t.h == Spent(h)) && (t.Good? ==> t.reply == Unmanaged)
  {
    hide Mentioned, Owned, Claim, Create;
    SameMentions(h, Spent(h), tag);
    assert ValidJournal(Entries(h));
  }

  /** A reply that an installation succeeded is true: the plan is allowed, by the program's own unchanged rule if the
      reply says so. It says otherwise exactly if the first look succeeds, the plan has no entry and a rule of somebody
      else allows it, and then nothing is changed. A rule of somebody else that does anything but allow is refused and
      kept. */
  lemma InstallReplies(h: Host, plan: Scope, tag: nat)
    requires Accounted(h) && NewTag(h, tag)
    ensures var t, i := Install(h, plan, tag), IndexOf(Entries(h), plan);
            && (t.Good? ==> plan in t.h.rules && t.h.rules[plan].action == Allow && t.reply != Removed)
            && (t.Good? && t.reply.Managed? ==> InstalledNow(t.h, plan))
            && (t.Good? && t.reply == Unmanaged
                <==> Next(h.luck) == Done && i == |Entries(h)| && plan in h.rules && h.rules[plan].action == Allow)
            && (t.Good? && t.reply == Unmanaged ==> t.h == Spent(h))
            && (plan in h.rules && h.rules[plan].action != Allow ==>
                  t.Bad? && t.h.rules == h.rules && t.h.journal == h.journal)
  {
    hide ValidJournal, Mentioned, Claim, Installable, InstalledNow, NewTag, Create;
    var i := IndexOf(Entries(h), plan);
    AccountedValid(h);
    SameMentions(h, Spent(h), tag);
    if Installable(h, plan) {
      LuckAside(h, Spent(h), plan);
      InstallConverges(h, plan, tag);
      InstallableFacts(h, plan);
      if Install(h, plan, tag).Good? {
        InstalledAllows(Install(h, plan, tag).h, plan);
      }
    } else {
      RefusedReplies(h, plan, tag);
    }
  }

  lemma RefusedReplies(h: Host, plan: Scope, tag: nat)
    requires Accounted(h) && !Installable(h, plan)
    ensures var t, i := Install(h, plan, tag), IndexOf(Entries(h), plan);
            && t.h.rules == h.rules && t.h.journal == h.journal
            && (t.Good? ==> t.reply == Unmanaged && t.h == Spent(h))
            && (t.Good? <==>
                  Next(h.luck) == Done && i == |Entries(h)| && plan in h.rules && h.rules[plan].action == Allow)
  {
    hide ValidJournal, Mentioned, Claim, Create, Journaled;
    AccountedValid(h);
    var i := IndexOf(Entries(h), plan);
    if i < |Entries(h)| {
      SameMentions(h, Spent(h), Entries(h)[i].tag);
    }
  }

  lemma InstalledAllows(h: Host, plan: Scope)
    requires InstalledNow(h, plan)
    ensures plan in h.rules && h.rules[plan].action == Allow
  {
  }

  // ---- Removing survives failures ----

  predicate PlansApart(entries: seq<Entry>) {
    forall i, j :: 0 <= i < j < |entries| ==> entries[i].plan != entries[j].plan
  }

  lemma WithoutAt(entries: seq<Entry>, e: Entry)
    requires ValidJournal(entries) && e in entries
    ensures var i := IndexOf(entries, e.plan);
            i < |entries| && entries[i] == e && Without(entries, e) == entries[..i] + entries[i + 1..]
  {
    hide IndexOf;
    var k :| 0 <= k < |entries| && entries[k] == e;
    var i := IndexOf(entries, e.plan);
    assert i <= k;
  }

  lemma DroppedAt(entries: seq<Entry>, i: nat)
    requires i < |entries| && ValidJournal(entries)
    ensures var after := entries[..i] + entries[i + 1..];
            ValidJournal(after) && forall x :: x in after <==> x in entries && x.plan != entries[i].plan
  {
    hide ValidJournal;
    JournalDropped(entries, i);
    var after := entries[..i] + entries[i + 1..];
    assert entries == entries[..i] + [entries[i]] + entries[i + 1..];
    forall x | x in after ensures x in entries && x.plan != entries[i].plan {
      OtherPlans(entries, i, x);
    }
  }

  lemma JournalDropped(entries: seq<Entry>, i: nat)
    requires i < |entries| && ValidJournal(entries)
    ensures ValidJournal(entries[..i] + entries[i + 1..])
  {
    var after := entries[..i] + entries[i + 1..];
    assert forall k :: 0 <= k < |after| ==> after[k] == entries[if k < i then k else k + 1];
  }

  lemma OtherPlans(entries: seq<Entry>, i: nat, x: Entry)
    requires i < |entries| && ValidJournal(entries) && x in entries[..i] + entries[i + 1..]
    ensures x.plan != entries[i].plan
  {
    var after := entries[..i] + entries[i + 1..];
    var k :| 0 <= k < |after| && after[k] == x;
    assert x == entries[if k < i then k else k + 1];
  }

  lemma WithoutSpec(entries: seq<Entry>, e: Entry)
    requires ValidJournal(entries) && e in entries
    ensures ValidJournal(Without(entries, e))
    ensures forall x :: x in Without(entries, e) <==> x in entries && x.plan != e.plan
    ensures forall x :: x in entries && x.plan == e.plan ==> x == e
  {
    hide ValidJournal, Without;
    WithoutAt(entries, e);
    DroppedAt(entries, IndexOf(entries, e.plan));
    forall x | x in entries && x.plan == e.plan ensures x == e {
      WithoutAt(entries, x);
    }
  }

  /** Everything that this invocation is about can be removed. */
  ghost predicate Removable(h: Host, plan: Option<Scope>) {
    Accounted(h) && forall e :: e in Entries(h) && Picked(plan, e) ==> Undrifted(h, e)
  }

  /** Other rules and entries are untouched; of the removed ones the rule went before the entry. */
  predicate Less(h: Host, after: Host, e: Entry) {
    && after.others == h.others && (after.rules == h.rules || after.rules == h.rules - {e.plan})
    && (Entries(after) == Entries(h) || (Entries(after) == Without(Entries(h), e) && e.plan !in after.rules))
  }

  lemma RemoveOneLess(h: Host, e: Entry)
    requires Undrifted(h, e)
    ensures var t := RemoveOne(h, e);
            && Less(h, t.h, e)
            && (t.Good? ==> Entries(t.h) == Without(Entries(h), e) && t.h.rules == h.rules - {e.plan})
            && (AllDone(h.luck) ==> t.Good? && AllDone(t.h.luck))
  {
    hide Mentioned, Owned, Without;
    if Owned(h, e) == Yes {
      var deleted := DeleteRule(h, e);
      if deleted.Good? {
        DeletedIsGone(h, e, deleted.h);
        SameMentions(deleted.h, Spent(deleted.h), e.tag);
        assert Entries(Spent(deleted.h)) == Entries(h);
      }
    } else {
      assert h.rules - {e.plan} == h.rules;
    }
  }

  lemma DeletedIsGone(h: Host, e: Entry, after: Host)
    requires Owned(h, e) == Yes && after.rules == h.rules - {e.plan} && after.others == h.others
    ensures !Mentioned(after, e.tag) && Owned(after, e) == No
  {
  }

  lemma OwnedWithout(h: Host, after: Host, plan: Scope, e: Entry)
    requires after.others == h.others && after.rules == h.rules - {plan} && e.plan != plan && Undrifted(h, e)
    ensures Undrifted(after, e)
  {
  }

  lemma UndriftedGone(h: Host, after: Host, e: Entry)
    requires Undrifted(h, e) && after.others == h.others && after.rules == h.rules - {e.plan}
    ensures !Mentioned(after, e.tag) && Undrifted(after, e)
  {
  }

  lemma SameUndrifted(h: Host, after: Host, e: Entry)
    requires Undrifted(h, e) && after.others == h.others && after.rules == h.rules
    ensures Undrifted(after, e)
  {
    SameMentions(h, after, e.tag);
  }

  /** One removal, however it fails, keeps everything removable and accounted for. */
  lemma LessIsRemovable(h: Host, after: Host, plan: Option<Scope>, e: Entry)
    requires Removable(h, plan) && e in Entries(h) && Picked(plan, e) && Less(h, after, e)
    ensures Removable(after, plan)
  {
    hide Mentioned, Owned, Undrifted, Without, ValidJournal;
    AccountedValid(h);
    WithoutSpec(Entries(h), e);
    forall x | x in Entries(after) && Picked(plan, x) ensures Undrifted(after, x) {
      if after.rules == h.rules {
        SameUndrifted(h, after, x);
      } else if x.plan == e.plan {
        UndriftedGone(h, after, e);
      } else {
        OwnedWithout(h, after, e.plan, x);
      }
    }
    forall t | Mentioned(after, t) ensures Journaled(after, t) {
      StillJournaled(h, after, e, t);
    }
  }

  lemma AccountedValid(h: Host)
    requires Accounted(h)
    ensures ValidJournal(Entries(h))
  {
  }

  lemma StillJournaled(h: Host, after: Host, e: Entry, tag: nat)
    requires Accounted(h) && e in Entries(h) && Undrifted(h, e) && Less(h, after, e) && Mentioned(after, tag)
    ensures Journaled(after, tag)
  {
    hide Owned, Without, ValidJournal;
    assert Mentioned(h, tag);
    var i :| 0 <= i < |Entries(h)| && Entries(h)[i].tag == tag;
    if Entries(after) == Entries(h) {
      assert Entries(after)[i].tag == tag;
    } else {
      WithoutSpec(Entries(h), e);
      RuleGone(h, after, e);
      assert Entries(h)[i] in Entries(h) && Entries(h)[i] != e;
      assert Entries(h)[i] in Entries(after);
    }
  }

  lemma RuleGone(h: Host, after: Host, e: Entry)
    requires Undrifted(h, e) && after.others == h.others && e.plan !in after.rules
    requires after.rules == h.rules || after.rules == h.rules - {e.plan}
    ensures !Mentioned(after, e.tag)
  {
    if after.rules == h.rules {
      SameMentions(h, after, e.tag);
    } else {
      UndriftedGone(h, after, e);
    }
  }

  /** Only rules that this invocation owns, unchanged, may go; all others stay as they are. */
  ghost predicate OnlyOwnRemoved(h: Host, after: Host, plan: Option<Scope>) {
    && after.others == h.others
    && (forall k :: k in after.rules ==> k in h.rules && after.rules[k] == h.rules[k])
    && (forall k :: k in h.rules && k !in after.rules ==>
          exists e :: e in Entries(h) && e.plan == k && Picked(plan, e) && Owned(h, e) == Yes)
  }

  ghost predicate Among(selected: seq<Entry>, entries: seq<Entry>, plan: Option<Scope>) {
    PlansApart(selected) && forall e :: e in selected ==> e in entries && Picked(plan, e)
  }

  predicate Listed(selected: seq<Entry>, plan: Scope) {
    exists i :: 0 <= i < |selected| && selected[i].plan == plan
  }

  /** All selected entries and their rules are gone, and nothing else. */
  ghost predicate Cleared(h: Host, after: Host, selected: seq<Entry>) {
    && (forall e :: e in Entries(after) <==> e in Entries(h) && !Listed(selected, e.plan))
    && forall e :: e in selected ==> e.plan !in after.rules
  }

  lemma ListedNext(selected: seq<Entry>, e: Entry, plan: Scope)
    ensures Listed(selected + [e], plan) <==> Listed(selected, plan) || e.plan == plan
  {
    if Listed(selected, plan) {
      var i :| 0 <= i < |selected| && selected[i].plan == plan;
      assert (selected + [e])[i].plan == plan;
    }
    assert (selected + [e])[|selected|] == e;
  }

  lemma StepRemoves(h: Host, before: Host, after: Host, plan: Option<Scope>, e: Entry)
    requires Removable(h, plan) && OnlyOwnRemoved(h, before, plan) && Less(before, after, e)
    requires e in Entries(h) && Picked(plan, e)
    ensures OnlyOwnRemoved(h, after, plan)
  {
    hide Mentioned, Owned, Without, Accounted;
    if e.plan in h.rules && e.plan !in after.rules {
      assert Undrifted(h, e);
    }
  }

  lemma StepClears(h: Host, before: Host, after: Host, selected: seq<Entry>, e: Entry)
    requires Cleared(h, before, selected) && ValidJournal(Entries(before)) && e in Entries(before)
    requires after.rules == before.rules - {e.plan} && Entries(after) == Without(Entries(before), e)
    ensures Cleared(h, after, selected + [e])
  {
    hide Without, ValidJournal, Listed;
    WithoutSpec(Entries(before), e);
    forall x ensures x in Entries(after) <==> x in Entries(h) && !Listed(selected + [e], x.plan) {
      ListedNext(selected, e, x.plan);
    }
  }

  lemma {:induction false} RemoveEachKeeps(h: Host, selected: seq<Entry>, plan: Option<Scope>)
    requires Removable(h, plan) && Among(selected, Entries(h), plan)
    ensures var t := RemoveEach(h, selected);
            && Removable(t.h, plan) && OnlyOwnRemoved(h, t.h, plan)
            && (t.Good? ==> Cleared(h, t.h, selected))
            && (AllDone(h.luck) ==> t.Good? && AllDone(t.h.luck))
    decreases |selected|
  {
    hide Mentioned, Owned, Undrifted, Without, Accounted, RemoveOne, Less, Listed, Picked;
    if selected == [] {
      NothingListed();
    } else {
      var shorter, e := selected[..|selected| - 1], selected[|selected| - 1];
      assert shorter + [e] == selected;
      assert forall x :: x in shorter ==> x in selected;
      RemoveEachKeeps(h, shorter, plan);
      var before := RemoveEach(h, shorter);
      if before.Good? {
        NotListed(selected);
        assert e in Entries(before.h);
        RemoveOneLess(before.h, e);
        var t := RemoveOne(before.h, e);
        AccountedValid(before.h);
        LessIsRemovable(before.h, t.h, plan, e);
        StepRemoves(h, before.h, t.h, plan, e);
        if t.Good? {
          StepClears(h, before.h, t.h, shorter, e);
        }
      }
    }
  }

  lemma NothingListed()
    ensures forall plan :: !Listed([], plan)
  {
  }

  lemma NotListed(selected: seq<Entry>)
    requires selected != [] && PlansApart(selected)
    ensures !Listed(selected[..|selected| - 1], selected[|selected| - 1].plan)
  {
  }

  lemma {:induction false} SelectionSpec(entries: seq<Entry>, plan: Option<Scope>)
    requires PlansApart(entries)
    ensures Among(Selection(entries, plan), entries, plan)
    ensures forall e :: e in entries && Picked(plan, e) ==> e in Selection(entries, plan)
    decreases |entries|
  {
    if entries != [] {
      var rest := Selection(entries[1..], plan);
      SelectionSpec(entries[1..], plan);
      assert forall e :: e in entries <==> e == entries[0] || e in entries[1..];
      forall j | 0 <= j < |rest| ensures rest[j].plan != entries[0].plan {
        assert rest[j] in rest && rest[j] in entries[1..];
        var k :| 0 <= k < |entries[1..]| && entries[1..][k] == rest[j];
        assert entries[k + 1] == rest[j];
      }
    }
  }

  /** Nothing of the plan is left: no journal entry, and no rule in its place. */
  ghost predicate RemovedNow(h: Host, plan: Option<Scope>) {
    Accounted(h) && forall e :: e in Entries(h) ==> !Picked(plan, e)
  }

  /** A removal, however it fails, touches only rules it owns, keeps every tagged rule accounted for, and leaves
      everything removable; if nothing fails, no entry of the plan is left. */
  lemma RemoveConverges(h: Host, plan: Option<Scope>)
    requires Removable(h, plan)
    ensures var t := Remove(h, plan);
            && Removable(t.h, plan) && OnlyOwnRemoved(h, t.h, plan)
            && (t.Good? ==> RemovedNow(t.h, plan)
                            && forall e :: e in Entries(h) && Picked(plan, e) ==> e.plan !in t.h.rules)
            && (AllDone(h.luck) ==> t.Good?)
  {
    hide Mentioned, Owned, Undrifted, Accounted, RemoveEach, Without, Picked, Selection;
    AccountedValid(h);
    var seen := Spent(h);
    var selected := Selection(Entries(h), plan);
    SelectionSpec(Entries(h), plan);
    LuckRemovable(h, seen, plan);
    if Next(h.luck) == Done {
      RemoveEachKeeps(seen, selected, plan);
      var removed := RemoveEach(seen, selected);
      if removed.Good? {
        UnlinkKeeps(removed.h, plan);
        SelectedAreListed(selected);
        SameOwnRemoved(h, seen, Unlink(removed.h).h, removed.h, plan);
      } else {
        SameOwnRemoved(h, seen, removed.h, removed.h, plan);
      }
    }
  }

  lemma SelectedAreListed(selected: seq<Entry>)
    ensures forall e :: e in selected ==> Listed(selected, e.plan)
  {
  }

  lemma LuckRemovable(h: Host, after: Host, plan: Option<Scope>)
    requires Removable(h, plan) && after == h.(luck := after.luck)
    ensures Removable(after, plan)
  {
    hide Mentioned, Owned, Undrifted, Accounted;
    LuckAccounted(h, after);
    forall e | e in Entries(after) && Picked(plan, e) ensures Undrifted(after, e) {
      SameUndrifted(h, after, e);
    }
  }

  lemma UnlinkKeeps(h: Host, plan: Option<Scope>)
    requires Removable(h, plan)
    ensures var t := Unlink(h);
            && Removable(t.h, plan) && Entries(t.h) == Entries(h) && t.h.rules == h.rules && t.h.others == h.others
            && (AllDone(h.luck) ==> t.Good?)
  {
    hide Mentioned, Owned, Undrifted, Accounted;
    var t := Unlink(h);
    forall e | e in Entries(t.h) && Picked(plan, e) ensures Undrifted(t.h, e) {
      SameUndrifted(h, t.h, e);
    }
    SameAccounted(h, t.h);
  }

  lemma SameAccounted(h: Host, after: Host)
    requires Accounted(h) && after.rules == h.rules && after.others == h.others && Entries(after) == Entries(h)
    ensures Accounted(after)
  {
    hide Mentioned, Journaled, ValidJournal;
    forall t | Mentioned(after, t) ensures Journaled(after, t) {
      SameMentions(h, after, t);
      JournaledAfter(h, after, t);
    }
  }

  lemma SameOwnRemoved(h: Host, seen: Host, after: Host, removed: Host, plan: Option<Scope>)
    requires OnlyOwnRemoved(seen, removed, plan) && seen == h.(luck := seen.luck)
    requires after.rules == removed.rules && after.others == removed.others
    ensures OnlyOwnRemoved(h, after, plan)
  {
    hide Mentioned, Owned, Picked;
    SameMentions(seen, h, 0);
    forall k | k in h.rules && k !in after.rules
      ensures exists e :: e in Entries(h) && e.plan == k && Picked(plan, e) && Owned(h, e) == Yes
    {
      var e :| e in Entries(seen) && e.plan == k && Picked(plan, e) && Owned(seen, e) == Yes;
      assert e in Entries(h);
    }
  }

  /** Repeated removals. */
  function Removals(h: Host, plan: Option<Scope>, times: nat): Host {
    if times == 0 then h else Remove(Removals(h, plan, times - 1), plan).h
  }

  /** After any number of removals that failed anywhere, one that does not fail leaves nothing behind. */
  lemma {:induction false} RetryingRemoves(h: Host, plan: Option<Scope>, times: nat)
    requires Removable(h, plan)
    ensures Removable(Removals(h, plan, times), plan)
    ensures var reached := Removals(h, plan, times);
            AllDone(reached.luck) ==> Remove(reached, plan).Good? && RemovedNow(Remove(reached, plan).h, plan)
  {
    hide Remove, RemovedNow, Removable, OnlyOwnRemoved, AllDone;
    if times > 0 {
      RetryingRemoves(h, plan, times - 1);
      RemoveConverges(Removals(h, plan, times - 1), plan);
    }
    RemoveConverges(Removals(h, plan, times), plan);
  }

  /** In any state, drifted or not: a removal deletes only unchanged rules of its own, and no tagged rule loses its
      journal entry. */
  lemma RemoveSpares(h: Host, plan: Option<Scope>)
    requires Accounted(h)
    ensures OnlyOwnRemoved(h, Remove(h, plan).h, plan) && Accounted(Remove(h, plan).h)
  {
    hide Mentioned, Owned, Undrifted, Accounted, Picked, RemoveEach, Selection;
    if Removable(h, plan) {
      RemoveConverges(h, plan);
    } else {
      AccountedValid(h);
      SelectionSpec(Entries(h), plan);
      LuckAccounted(h, Spent(h));
      var e :| e in Entries(h) && Picked(plan, e) && !Undrifted(h, e);
      DriftStays(h, Spent(h), e);
    }
  }

  lemma DriftStays(h: Host, after: Host, e: Entry)
    requires !Undrifted(h, e) && after.rules == h.rules && after.others == h.others
    ensures !Undrifted(after, e)
  {
    SameMentions(h, after, e.tag);
  }
}
