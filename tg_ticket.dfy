/**
  The Telegram ticket page: member ID, name and reason seeded from the shared KYC
  record, a set of Telegram users toggled in and out, and the ticket text built
  from them.
 */
module TgTicket {
  import opened Types
  import opened JsText
  import opened RowFormat
  import Constants

  /** The header lines of a ticket, one string per line. */
  function HeaderLines(memberId: string, name: string, reason: string): seq<string> {
    ["Juan365", "", "Member ID : " + memberId, "Name : " + name, "", "Reason : " + reason]
  }

  /** The lines of a ticket: the header, then a blank line and one line per selected user if any. */
  function TicketLines(memberId: string, name: string, reason: string, users: seq<string>): (r: seq<string>)
    ensures |r| == if users == [] then 6 else 7 + |users|
  {
    HeaderLines(memberId, name, reason) + (if users == [] then [] else [""] + users)
  }

  /** The ticket template, with the users appended after a blank line when there are any. */
  function TicketText(memberId: string, name: string, reason: string, users: seq<string>): string {
    var text := "Juan365\n\nMember ID : " + memberId + "\nName : " + name + "\n\nReason : " + reason;
    if |users| > 0 then text + "\n\n" + Join(users, '\n') else text
  }

  /** Joining two non-empty lists puts one separator between their joins. */
  lemma {:induction false} JoinAppend(xs: seq<string>, ys: seq<string>, sep: char)
    requires |xs| >= 1 && |ys| >= 1
    ensures Join(xs + ys, sep) == Join(xs, sep) + [sep] + Join(ys, sep)
    decreases |xs|
  {
    if |xs| == 1 {
      JoinPrepend(xs[0], ys, sep);
      assert xs + ys == [xs[0]] + ys;
    } else {
      JoinAppend(xs[1..], ys, sep);
      assert (xs + ys)[1..] == xs[1..] + ys;
    }
  }

  /** The template literals, cut at the newlines. */
  lemma TemplateLiterals()
    ensures "Juan365\n\nMember ID : " == "Juan365" + ['\n'] + "" + ['\n'] + "Member ID : "
    ensures "\nName : " == ['\n'] + "Name : "
    ensures "\n\nReason : " == ['\n'] + "" + ['\n'] + "Reason : "
    ensures "\n\n" == ['\n'] + "" + ['\n']
  {
  }

  /** The header of the ticket is its header lines joined by newlines. */
  lemma HeaderIsLines(memberId: string, name: string, reason: string)
    ensures "Juan365\n\nMember ID : " + memberId + "\nName : " + name + "\n\nReason : " + reason
      == Join(HeaderLines(memberId, name, reason), '\n')
  {
    TemplateLiterals();
    JoinSix("Juan365", "", "Member ID : " + memberId, "Name : " + name, "", "Reason : " + reason, '\n');
  }

  /** The ticket text is its lines joined by newlines. */
  lemma TicketTextIsLines(memberId: string, name: string, reason: string, users: seq<string>)
    ensures TicketText(memberId, name, reason, users) == Join(TicketLines(memberId, name, reason, users), '\n')
  {
    var h := HeaderLines(memberId, name, reason);
    HeaderIsLines(memberId, name, reason);
    if users != [] {
      TemplateLiterals();
      JoinPrepend("", users, '\n');
      JoinAppend(h, [""] + users, '\n');
      var head, tail := Join(h, '\n'), Join(users, '\n');
      assert Join(TicketLines(memberId, name, reason, users), '\n') == head + ['\n'] + ("" + ['\n'] + tail);
      assert head + ['\n'] + ("" + ['\n'] + tail) == head + "\n\n" + tail;
      assert TicketLines(memberId, name, reason, users) == h + ([""] + users);
      assert TicketText(memberId, name, reason, users) == head + "\n\n" + tail;
    } else {
      assert TicketLines(memberId, name, reason, users) == h;
    }
  }

  /** No field holds a newline. */
  predicate SingleLineFields(memberId: string, name: string, reason: string, users: seq<string>) {
    '\n' !in memberId && '\n' !in name && '\n' !in reason && forall i :: 0 <= i < |users| ==> '\n' !in users[i]
  }

  /**
    When no field holds a newline, the ticket reads back line by line as the
    header followed by the users: member ID on line 3, name on line 4, reason on
    line 6, and each user on a line of its own in selection order.
   */
  lemma TicketSplitsIntoLines(memberId: string, name: string, reason: string, users: seq<string>)
    requires SingleLineFields(memberId, name, reason, users)
    ensures Split(TicketText(memberId, name, reason, users), '\n') == TicketLines(memberId, name, reason, users)
    ensures var lines := Split(TicketText(memberId, name, reason, users), '\n');
      && lines[2] == "Member ID : " + memberId && lines[3] == "Name : " + name && lines[5] == "Reason : " + reason
      && (users != [] ==> lines[7..] == users)
  {
    var lines := TicketLines(memberId, name, reason, users);
    TicketTextIsLines(memberId, name, reason, users);
    forall i | 0 <= i < |lines|
      ensures '\n' !in lines[i]
    {
      if i >= 7 {
        assert lines[i] == users[i - 7];
      }
    }
    SplitJoin(lines, '\n');
  }

  /** `xs.filter(u => u !== x)`. */
  function RemoveAll(xs: seq<string>, x: string): (r: seq<string>)
    ensures |r| <= |xs|
    decreases |xs|
  {
    if xs == [] then []
    else if xs[0] == x then RemoveAll(xs[1..], x)
    else [xs[0]] + RemoveAll(xs[1..], x)
  }

  /** Filtering keeps exactly the other elements. */
  lemma {:induction false} RemoveAllMembers(xs: seq<string>, x: string)
    ensures forall y :: y in RemoveAll(xs, x) <==> y in xs && y != x
    decreases |xs|
  {
    if xs != [] {
      RemoveAllMembers(xs[1..], x);
      assert xs == [xs[0]] + xs[1..];
    }
  }

  /** Filtering out an absent element changes nothing. */
  lemma {:induction false} RemoveAllAbsent(xs: seq<string>, x: string)
    requires x !in xs
    ensures RemoveAll(xs, x) == xs
    decreases |xs|
  {
    if xs != [] {
      assert x !in xs[1..];
      RemoveAllAbsent(xs[1..], x);
      assert [xs[0]] + xs[1..] == xs;
    }
  }

  /** Filtering distributes over concatenation. */
  lemma {:induction false} RemoveAllAppend(xs: seq<string>, ys: seq<string>, x: string)
    ensures RemoveAll(xs + ys, x) == RemoveAll(xs, x) + RemoveAll(ys, x)
    decreases |xs|
  {
    if xs == [] {
      assert xs + ys == ys;
    } else {
      assert (xs + ys)[0] == xs[0];
      assert (xs + ys)[1..] == xs[1..] + ys;
      RemoveAllAppend(xs[1..], ys, x);
    }
  }

  /** No user appears twice. */
  predicate NoDuplicates(xs: seq<string>) {
    forall i, j :: 0 <= i < j < |xs| ==> xs[i] != xs[j]
  }

  /** Filtering keeps a list free of duplicates. */
  lemma {:induction false} RemoveAllNoDuplicates(xs: seq<string>, x: string)
    requires NoDuplicates(xs)
    ensures NoDuplicates(RemoveAll(xs, x))
    decreases |xs|
  {
    if xs != [] {
      RemoveAllNoDuplicates(xs[1..], x);
      RemoveAllMembers(xs[1..], x);
      if xs[0] != x {
        assert xs[0] !in xs[1..];
        var r := RemoveAll(xs[1..], x);
        assert xs[0] !in r;
        assert forall j :: 0 <= j < |r| ==> ([xs[0]] + r)[j + 1] == r[j];
      }
    }
  }

  /** handleUserToggle's update: drop the user if selected, otherwise append them. */
  function ToggledUsers(prev: seq<string>, u: string): seq<string> {
    if u in prev then RemoveAll(prev, u) else prev + [u]
  }

  /** Toggling flips the membership of that user and of no one else. */
  lemma ToggleFlipsMembership(prev: seq<string>, u: string)
    ensures u in ToggledUsers(prev, u) <==> u !in prev
    ensures forall v :: v != u ==> (v in ToggledUsers(prev, u) <==> v in prev)
  {
    RemoveAllMembers(prev, u);
  }

  /** Toggling keeps the selection free of duplicates. */
  lemma ToggleKeepsNoDuplicates(prev: seq<string>, u: string)
    requires NoDuplicates(prev)
    ensures NoDuplicates(ToggledUsers(prev, u))
  {
    if u in prev {
      RemoveAllNoDuplicates(prev, u);
    }
  }

  /**
    Toggling one user twice restores a selection that lacked them; for a user who
    was selected, it moves them to the end of the selection.
   */
  lemma ToggleTwice(prev: seq<string>, u: string)
    ensures u !in prev ==> ToggledUsers(ToggledUsers(prev, u), u) == prev
    ensures u in prev ==> ToggledUsers(ToggledUsers(prev, u), u) == RemoveAll(prev, u) + [u]
  {
    RemoveAllMembers(prev, u);
    if u !in prev {
      RemoveAllAppend(prev, [u], u);
      RemoveAllAbsent(prev, u);
      assert RemoveAll([u], u) == [];
    }
  }

  class TgTicketPage {
    var memberId: string
    var name: string
    var reason: string
    var selectedUsers: seq<string>
    var ticketText: string

    /** The page as first rendered: empty fields, the default remark as reason, no users. */
    constructor()
      ensures memberId == "" && name == "" && reason == Constants.NormalizedRemarks[0]
      ensures selectedUsers == [] && ticketText == ""
    {
      memberId := "";
      name := "";
      reason := Constants.NormalizedRemarks[0];
      selectedUsers := [];
      ticketText := "";
    }

    /**
      Seeding from the shared record: a missing member ID or name becomes empty,
      an empty normalized remark becomes the default remark.
     */
    method SeedFromRecord(k: KycData)
      modifies this
      ensures memberId == OrEmpty(k.memberId) && name == OrEmpty(k.name)
      ensures reason == if k.remarkNormalized == "" then Constants.NormalizedRemarks[0] else k.remarkNormalized
      ensures reason != ""
      ensures selectedUsers == old(selectedUsers) && ticketText == old(ticketText)
    {
      memberId := OrEmpty(k.memberId);
      name := OrEmpty(k.name);
      if k.remarkNormalized == "" {
        reason := Constants.NormalizedRemarks[0];
      } else {
        reason := k.remarkNormalized;
      }
    }

    /** The ticket-text effect: the text is rebuilt from the fields and the selection. */
    method RefreshTicketText()
      modifies this
      ensures ticketText == Join(TicketLines(memberId, name, reason, selectedUsers), '\n')
      ensures memberId == old(memberId) && name == old(name) && reason == old(reason)
      ensures selectedUsers == old(selectedUsers)
    {
      var text := "Juan365\n\nMember ID : " + memberId + "\nName : " + name + "\n\nReason : " + reason;
      if |selectedUsers| > 0 {
        text := text + "\n\n" + Join(selectedUsers, '\n');
      }
      ticketText := text;
      TicketTextIsLines(memberId, name, reason, selectedUsers);
    }

    /** handleUserToggle: the user's membership flips, a duplicate-free selection stays so. */
    method ToggleUser(u: string)
      modifies this
      ensures selectedUsers == ToggledUsers(old(selectedUsers), u)
      ensures u in selectedUsers <==> u !in old(selectedUsers)
      ensures NoDuplicates(old(selectedUsers)) ==> NoDuplicates(selectedUsers)
      ensures memberId == old(memberId) && name == old(name) && reason == old(reason)
      ensures ticketText == old(ticketText)
    {
      ToggleFlipsMembership(selectedUsers, u);
      if NoDuplicates(selectedUsers) {
        ToggleKeepsNoDuplicates(selectedUsers, u);
      }
      if u in selectedUsers {
        selectedUsers := RemoveAll(selectedUsers, u);
      } else {
        selectedUsers := selectedUsers + [u];
      }
    }
  }
}
