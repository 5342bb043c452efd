/** The side-panel editor for one partner record: a draft seeded from the
    partner being edited (or blank for a new one), a lock that makes the form
    read-only, a star toggle, fields shown according to the draft's status,
    Save, which sends one complete record to the store, and a delete guarded by
    a confirmation dialog. Calls to the store and to the panel's close callback
    are recorded in a log of effects. */
module DrawerContent {
  import opened Partners

  /* ---------------- Draft values ---------------- */

  /** What `parseInt` leaves in an amount field: an integer, or NaN when the
      text is not a number. */
  datatype AmountInput = Entered(n: int) | Unparsable

  /** `amount > 0 ? amount : null`: only a positive number is stored; zero,
      a negative number and NaN (for which `> 0` is false) become null. */
  function StoredAmount(a: AmountInput): (stored: Option<int>)
    ensures stored.Some? <==> a.Entered? && a.n > 0
    ensures stored.Some? ==> stored.value == a.n
  {
    match a
    case Entered(n) => if n > 0 then Some(n) else None
    case Unparsable => None
  }

  /** The editor's form state, one value per field. */
  datatype Draft = Draft(
    name: string,
    email: Option<string>,
    number: Option<string>,
    status: Status,
    notes: string,
    saved: bool,
    nextStepDate: Date,
    pledgedAmount: AmountInput,
    confirmedDate: Date,
    confirmedAmount: AmountInput
  )

  /** What a date picker holds after the date library has read a stored
      date: the same day, or an invalid date for a null or unparsable value.
      It is never empty (null). */
  function Reopened(stored: Date): (picked: Date)
    ensures picked != Null
    ensures stored.Day? ==> picked == stored
    ensures !stored.Day? ==> picked == Invalid
  {
    match stored
    case Day(_) => stored
    case Null => Invalid
    case Invalid => Invalid
  }

  /** The draft the editor opens with. Text fields and the star come from the
      partner or default to empty, "To Ask" and unstarred; amounts come from
      the partner or default to 0. For a new partner both date pickers start
      at `today`, the date library's "now"; for an existing partner they hold
      what the library made of the stored dates. */
  function OpeningDraft(partner: Option<Partner>, today: int): (d: Draft)
    ensures partner.None? ==>
      d == Draft("", None, None, ToAsk, "", false, Day(today), Entered(0), Day(today), Entered(0))
    ensures partner.Some? ==>
      && d.name == partner.value.name && d.email == partner.value.email
      && d.number == partner.value.number && d.status == partner.value.status
      && d.notes == partner.value.notes && d.saved == partner.value.saved
      && d.pledgedAmount == Entered(AmountOrZero(partner.value.pledgedAmount))
      && d.confirmedAmount == Entered(AmountOrZero(partner.value.confirmedAmount))
      && d.nextStepDate == Reopened(partner.value.nextStepDate)
      && d.confirmedDate == Reopened(partner.value.confirmedDate)
  {
    match partner
    case None =>
      Draft("", None, None, ToAsk, "", false, Day(today), Entered(0), Day(today), Entered(0))
    case Some(p) =>
      Draft(p.name, p.email, p.number, p.status, p.notes, p.saved, Reopened(p.nextStepDate),
            Entered(AmountOrZero(p.pledgedAmount)), Reopened(p.confirmedDate),
            Entered(AmountOrZero(p.confirmedAmount)))
  }

  /* ---------------- Field visibility ---------------- */

  /** The next-step date picker is shown for "Pledged", "Contacted" and "Letter Sent". */
  predicate ShowsNextStepDate(s: Status) { s == Pledged || s == Contacted || s == LetterSent }

  /** The pledged amount is shown for "Pledged" and "Confirmed". */
  predicate ShowsPledgedAmount(s: Status) { s == Pledged || s == Confirmed }

  /** The confirmed amount and the date received are shown for "Confirmed" only. */
  predicate ShowsConfirmed(s: Status) { s == Confirmed }

  /** The visibility table status by status: no optional field before a
      letter is sent or after a rejection; the next-step date while a letter
      is out or a decision pending; the date and the pledge once pledged; the
      pledge and the confirmation once confirmed. */
  lemma VisibilityTable(s: Status)
    ensures s in {ToAsk, Asked, Rejected} ==>
      !ShowsNextStepDate(s) && !ShowsPledgedAmount(s) && !ShowsConfirmed(s)
    ensures s in {LetterSent, Contacted} ==>
      ShowsNextStepDate(s) && !ShowsPledgedAmount(s) && !ShowsConfirmed(s)
    ensures s == Pledged ==> ShowsNextStepDate(s) && ShowsPledgedAmount(s) && !ShowsConfirmed(s)
    ensures s == Confirmed ==> !ShowsNextStepDate(s) && ShowsPledgedAmount(s) && ShowsConfirmed(s)
    ensures ShowsConfirmed(s) ==> ShowsPledgedAmount(s) && !ShowsNextStepDate(s)
  {
  }

  /* ---------------- The saved record ---------------- */

  /** A record as Save writes it: an amount is either absent or positive. */
  predicate Normalized(p: Partner)
  {
    && (p.pledgedAmount.Some? ==> p.pledgedAmount.value > 0)
    && (p.confirmedAmount.Some? ==> p.confirmedAmount.value > 0)
  }

  /** The complete record Save sends: the given id, both amounts stored only
      when positive, every other field exactly as in the draft, whether or
      not the current status shows it. Missing contacts stay missing (null);
      an empty picker is written as null and an invalid date as the text
      "Invalid Date". */
  function SavedRecord(id: string, d: Draft): (p: Partner)
    ensures Normalized(p)
    ensures p.id == id
    ensures p.pledgedAmount == StoredAmount(d.pledgedAmount)
    ensures p.confirmedAmount == StoredAmount(d.confirmedAmount)
    ensures p.name == d.name && p.email == d.email && p.number == d.number
    ensures p.status == d.status && p.notes == d.notes && p.saved == d.saved
    ensures p.nextStepDate == d.nextStepDate && p.confirmedDate == d.confirmedDate
  {
    Partner(id, d.name, d.email, d.number, d.status, d.nextStepDate,
            StoredAmount(d.pledgedAmount), d.confirmedDate,
            StoredAmount(d.confirmedAmount), d.notes, d.saved)
  }

  /** Opening a stored record and saving it unchanged writes back each date
      as the library read it, so a null date comes back as "Invalid Date";
      the record comes back unchanged exactly when its amounts are absent or
      positive and neither date is null. */
  lemma {:induction false} ReopenAndSaveRoundTrip(p: Partner, today: int)
    ensures SavedRecord(p.id, OpeningDraft(Some(p), today)).nextStepDate == Reopened(p.nextStepDate)
    ensures SavedRecord(p.id, OpeningDraft(Some(p), today)).confirmedDate == Reopened(p.confirmedDate)
    ensures SavedRecord(p.id, OpeningDraft(Some(p), today)) == p <==>
      Normalized(p) && !p.nextStepDate.Null? && !p.confirmedDate.Null?
  {
    var d := OpeningDraft(Some(p), today);
    var q := SavedRecord(p.id, d);
    if Normalized(p) && !p.nextStepDate.Null? && !p.confirmedDate.Null? {
      assert q.pledgedAmount == p.pledgedAmount by {
        if p.pledgedAmount.Some? { assert d.pledgedAmount == Entered(p.pledgedAmount.value); }
      }
      assert q.confirmedAmount == p.confirmedAmount by {
        if p.confirmedAmount.Some? { assert d.confirmedAmount == Entered(p.confirmedAmount.value); }
      }
    }
  }

  /** A stored amount of 0 does not survive a reopen-and-save: it is written
      back as null. */
  lemma ZeroAmountSavedAsNull(p: Partner, today: int)
    requires p.pledgedAmount == Some(0)
    ensures SavedRecord(p.id, OpeningDraft(Some(p), today)).pledgedAmount == None
  {
  }

  /** Changing the status changes only the status of what Save writes: the
      values of fields the new status hides are written all the same. */
  lemma SaveIgnoresVisibility(id: string, d: Draft, s: Status)
    ensures SavedRecord(id, d.(status := s)) == SavedRecord(id, d).(status := s)
  {
  }

  /** Saving a new partner untouched writes a "To Ask" record under the fresh
      id, dated today on both dates, with both amounts null although the form
      showed 0. */
  lemma NewPartnerSavedBlank(freshId: string, today: int)
    ensures SavedRecord(freshId, OpeningDraft(None, today)) ==
      Partner(freshId, "", None, None, ToAsk, Day(today), None, Day(today), None, "", false)
  {
  }

  /* ---------------- The editor ---------------- */

  /** An effect the editor has on the world outside it. */
  datatype Effect =
    | Upsert(user: string, record: Partner)   // setPartner(uid, record)
    | Delete(user: string, partnerId: string) // deletePartner(uid, id)
    | Close                                   // the onClose callback

  class Editor {
    /** The partner the panel was opened for, None for a new partner. */
    const partner: Option<Partner>

    var name: string
    var email: Option<string>
    var number: Option<string>
    var status: Status
    var notes: string
    var saved: bool
    var nextStepDate: Date
    var pledgedAmount: AmountInput
    var confirmedDate: Date
    var confirmedAmount: AmountInput

    /** The form is read-only while this is set. */
    var disabled: bool
    /** The delete confirmation dialog is open. */
    var dialogOpen: bool

    /** Every call to the store and to onClose, in order. */
    ghost var effects: seq<Effect>

    /** The current draft. */
    function Current(): Draft
      reads this
    {
      Draft(name, email, number, status, notes, saved, nextStepDate, pledgedAmount,
            confirmedDate, confirmedAmount)
    }

    /** The id Save writes under: the edited partner's, or a freshly generated one. */
    function RecordId(freshId: string): (id: string)
      ensures partner.Some? ==> id == partner.value.id
      ensures partner.None? ==> id == freshId
    {
      if partner.Some? then partner.value.id else freshId
    }

    /** What the log can hold: only records with positive-or-absent amounts are
        written, an existing partner is only ever written under its own id, and
        a delete only ever names the partner being edited. */
    ghost predicate Valid()
      reads this
    {
      forall e :: e in effects ==>
        match e
        case Upsert(_, r) => Normalized(r) && (partner.Some? ==> r.id == partner.value.id)
        case Delete(_, id) => partner.Some? && id == partner.value.id
        case Close => true
    }

    /** Opening the panel: locked exactly when an existing partner is being
        edited, dialog closed, nothing sent yet. */
    constructor Open(partner: Option<Partner>, today: int)
      ensures this.partner == partner
      ensures Current() == OpeningDraft(partner, today)
      ensures disabled == partner.Some?
      ensures !dialogOpen && effects == []
      ensures Valid()
    {
      this.partner := partner;
      var d := OpeningDraft(partner, today);
      name, email, number, status, notes, saved := d.name, d.email, d.number, d.status, d.notes, d.saved;
      this.nextStepDate, pledgedAmount := d.nextStepDate, d.pledgedAmount;
      this.confirmedDate, confirmedAmount := d.confirmedDate, d.confirmedAmount;
      disabled, dialogOpen := partner.Some?, false;
      effects := [];
    }

    /** The edit/clear button (shown for an existing partner only) flips the
        lock and keeps every draft value. */
    method ToggleLock()
      requires Valid()
      modifies this
      ensures Valid()
      ensures disabled == if partner.Some? then !old(disabled) else old(disabled)
      ensures Current() == old(Current())
      ensures dialogOpen == old(dialogOpen) && effects == old(effects)
    {
      if partner.Some? {
        disabled := !disabled;
      }
    }

    /** The star (shown for an existing partner only, usable while unlocked)
        flips `saved` and nothing else. */
    method ToggleStar()
      requires Valid()
      modifies this
      ensures Valid()
      ensures Current() ==
        if partner.Some? && !old(disabled) then old(Current()).(saved := !old(saved)) else old(Current())
      ensures disabled == old(disabled) && dialogOpen == old(dialogOpen) && effects == old(effects)
    {
      if partner.Some? && !disabled {
        saved := !saved;
      }
    }

    /** The status selector (usable while unlocked) changes the status only;
        values in fields the new status hides stay in the draft. */
    method SetStatus(s: Status)
      requires Valid()
      modifies this
      ensures Valid()
      ensures Current() == if !old(disabled) then old(Current()).(status := s) else old(Current())
      ensures disabled == old(disabled) && dialogOpen == old(dialogOpen) && effects == old(effects)
    {
      if !disabled {
        status := s;
      }
    }

    /** Typing in the name field (usable while unlocked). */
    method SetName(text: string)
      requires Valid()
      modifies this
      ensures Valid()
      ensures Current() == if !old(disabled) then old(Current()).(name := text) else old(Current())
      ensures disabled == old(disabled) && dialogOpen == old(dialogOpen) && effects == old(effects)
    {
      if !disabled {
        name := text;
      }
    }

    /** Typing in the email field: the field now holds text, possibly empty. */
    method SetEmail(text: string)
      requires Valid()
      modifies this
      ensures Valid()
      ensures Current() == if !old(disabled) then old(Current()).(email := Some(text)) else old(Current())
      ensures disabled == old(disabled) && dialogOpen == old(dialogOpen) && effects == old(effects)
    {
      if !disabled {
        email := Some(text);
      }
    }

    /** Typing in the number field: the field now holds text, possibly empty. */
    method SetNumber(text: string)
      requires Valid()
      modifies this
      ensures Valid()
      ensures Current() == if !old(disabled) then old(Current()).(number := Some(text)) else old(Current())
      ensures disabled == old(disabled) && dialogOpen == old(dialogOpen) && effects == old(effects)
    {
      if !disabled {
        number := Some(text);
      }
    }

    /** Typing in the notes field (usable while unlocked). */
    method SetNotes(text: string)
      requires Valid()
      modifies this
      ensures Valid()
      ensures Current() == if !old(disabled) then old(Current()).(notes := text) else old(Current())
      ensures disabled == old(disabled) && dialogOpen == old(dialogOpen) && effects == old(effects)
    {
      if !disabled {
        notes := text;
      }
    }

    /** Picking or clearing the next-step date; the picker exists only while
        the status shows it. */
    method SetNextStepDate(date: Date)
      requires Valid()
      modifies this
      ensures Valid()
      ensures Current() ==
        if !old(disabled) && ShowsNextStepDate(old(status)) then old(Current()).(nextStepDate := date)
        else old(Current())
      ensures disabled == old(disabled) && dialogOpen == old(dialogOpen) && effects == old(effects)
    {
      if !disabled && ShowsNextStepDate(status) {
        nextStepDate := date;
      }
    }

    /** Typing a pledged amount; the field exists only while the status shows it. */
    method SetPledgedAmount(amount: AmountInput)
      requires Valid()
      modifies this
      ensures Valid()
      ensures Current() ==
        if !old(disabled) && ShowsPledgedAmount(old(status)) then old(Current()).(pledgedAmount := amount)
        else old(Current())
      ensures disabled == old(disabled) && dialogOpen == old(dialogOpen) && effects == old(effects)
    {
      if !disabled && ShowsPledgedAmount(status) {
        pledgedAmount := amount;
      }
    }

    /** Typing a confirmed amount; the field exists only for "Confirmed". */
    method SetConfirmedAmount(amount: AmountInput)
      requires Valid()
      modifies this
      ensures Valid()
      ensures Current() ==
        if !old(disabled) && ShowsConfirmed(old(status)) then old(Current()).(confirmedAmount := amount)
        else old(Current())
      ensures disabled == old(disabled) && dialogOpen == old(dialogOpen) && effects == old(effects)
    {
      if !disabled && ShowsConfirmed(status) {
        confirmedAmount := amount;
      }
    }

    /** Picking or clearing the date received; the picker exists only for "Confirmed". */
    method SetConfirmedDate(date: Date)
      requires Valid()
      modifies this
      ensures Valid()
      ensures Current() ==
        if !old(disabled) && ShowsConfirmed(old(status)) then old(Current()).(confirmedDate := date)
        else old(Current())
      ensures disabled == old(disabled) && dialogOpen == old(dialogOpen) && effects == old(effects)
    {
      if !disabled && ShowsConfirmed(status) {
        confirmedDate := date;
      }
    }

    /** The Save button (usable while unlocked): with a signed-in user, one
        upsert of the complete record built from the draft; otherwise nothing.
        The draft itself is left as it is. */
    method Save(user: Option<string>, freshId: string)
      requires Valid()
      modifies this
      ensures Valid()
      ensures effects ==
        if !old(disabled) && user.Some? then old(effects) + [Upsert(user.value, SavedRecord(RecordId(freshId), old(Current())))]
        else old(effects)
      ensures Current() == old(Current())
      ensures disabled == old(disabled) && dialogOpen == old(dialogOpen)
    {
      if !disabled && user.Some? {
        effects := effects + [Upsert(user.value, SavedRecord(RecordId(freshId), Current()))];
      }
    }

    /** The Exit button: calls onClose and sends nothing. */
    method Exit()
      requires Valid()
      modifies this
      ensures Valid()
      ensures effects == old(effects) + [Close]
      ensures Current() == old(Current())
      ensures disabled == old(disabled) && dialogOpen == old(dialogOpen)
    {
      effects := effects + [Close];
    }

    /** The delete icon opens the confirmation dialog and sends nothing. */
    method OpenDeleteDialog()
      requires Valid()
      modifies this
      ensures Valid()
      ensures dialogOpen
      ensures Current() == old(Current())
      ensures disabled == old(disabled) && effects == old(effects)
    {
      dialogOpen := true;
    }

    /** Cancel (or dismissing the dialog) closes it and changes nothing else. */
    method CancelDelete()
      requires Valid()
      modifies this
      ensures Valid()
      ensures !dialogOpen
      ensures Current() == old(Current())
      ensures disabled == old(disabled) && effects == old(effects)
    {
      dialogOpen := false;
    }

    /** Delete in the open dialog: closes the dialog, deletes the edited
        partner by id when a user is signed in and a partner is being edited,
        then calls onClose. */
    method ConfirmDelete(user: Option<string>)
      requires Valid()
      modifies this
      ensures Valid()
      ensures !dialogOpen
      ensures effects ==
        if !old(dialogOpen) then old(effects)
        else if user.Some? && partner.Some? then old(effects) + [Delete(user.value, partner.value.id), Close]
        else old(effects) + [Close]
      ensures Current() == old(Current())
      ensures disabled == old(disabled)
    {
      if dialogOpen {
        dialogOpen := false;
        if user.Some? && partner.Some? {
          effects := effects + [Delete(user.value, partner.value.id)];
        }
        effects := effects + [Close];
      }
    }
  }

  /** Opening an existing partner, asking to delete and cancelling: no call
      is made and the draft is the one the panel opened with. */
  method CancelledDeleteScenario(p: Partner, today: int)
  {
    var editor := new Editor.Open(Some(p), today);
    editor.OpenDeleteDialog();
    editor.CancelDelete();
    assert editor.effects == [];
    assert !editor.dialogOpen && editor.disabled;
    assert editor.Current() == OpeningDraft(Some(p), today);
  }

  /** A new partner, named and saved with the amounts left at 0: exactly one
      upsert, under the fresh id, with both amounts null. */
  method NewPartnerScenario(user: string, freshId: string, today: int)
  {
    var editor := new Editor.Open(None, today);
    assert !editor.disabled;
    editor.SetName("Smith");
    editor.ToggleStar();
    editor.Save(Some(user), freshId);
    assert editor.effects ==
      [Upsert(user, Partner(freshId, "Smith", None, None, ToAsk, Day(today), None, Day(today), None, "", false))];
  }

  /** While locked, nothing the form offers changes the draft or sends
      anything; unlocking keeps the draft. */
  method LockedScenario(p: Partner, user: string, freshId: string, today: int)
  {
    var editor := new Editor.Open(Some(p), today);
    var before := editor.Current();
    editor.SetStatus(Confirmed);
    editor.SetName("changed");
    editor.ToggleStar();
    editor.Save(Some(user), freshId);
    assert editor.Current() == before && editor.effects == [];
    editor.ToggleLock();
    assert !editor.disabled && editor.Current() == before;
    editor.Save(Some(user), freshId);
    assert editor.effects == [Upsert(user, SavedRecord(p.id, before))];
  }
}
