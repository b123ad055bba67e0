/**
 * The add screen: the form's selections and the "儲存" button, which stamps
 * the form's values with the signed-in user's id and writes them to the
 * collection as a new document.
 */
module Add {
  import opened Wrappers
  import opened Tasks
  import opened TaskStore

  const LoginRequiredMessage: string := "❌ 請先登入"
  const SavedMessage: string := "儲存成功！"
  const SaveFailedPrefix: string := "❌ 儲存失敗："

  class AddForm {
    var userInput: string
    var selectionCategory: Category
    var selectionStateCategory: StateCategory
    var selectionHour: Int64
    var selectDate: Date
    var note: string
    var showAlert: bool
    var alertMessage: string

    /** The hour is one of the wheel's tags. */
    ghost predicate Valid()
      reads this
    {
      IsHourChoice(selectionHour)
    }

    /** The initial form; `today` is the clock's reading when the screen appears. */
    constructor (today: Date)
      ensures Valid()
      ensures userInput == "" && note == "" && selectDate == today
      ensures selectionCategory == Work && selectionStateCategory == UrgentImportant
      ensures selectionHour == UnknownHour
      ensures !showAlert && alertMessage == ""
    {
      userInput, note, selectDate := "", "", today;
      selectionCategory, selectionStateCategory := Work, UrgentImportant;
      selectionHour := UnknownHour;
      showAlert, alertMessage := false, "";
    }

    /** Turning the hour wheel: it offers only its tags. */
    method SelectHour(hour: Int64)
      requires IsHourChoice(hour)
      modifies this`selectionHour
      ensures Valid() && selectionHour == hour
    {
      selectionHour := hour;
    }

    /**
     * The "儲存" button. `currentUserId` is the signed-in user's id, `freshId`
     * the UUID the new record is created with, `newDocumentId` the id the
     * store assigns, and `encodeError` the description of the error the write
     * throws when the task cannot be encoded, if it throws. `saved` is the record written, if any.
     */
    method Save(currentUserId: Option<string>, db: TaskCollection, freshId: Uuid,
                newDocumentId: string, encodeError: Option<string>) returns (saved: Option<TaskItem>)
      requires Valid() && db.Valid()
      requires forall d | d in db.docs :: d.documentId != newDocumentId
      modifies this`userInput, this`note, this`showAlert, this`alertMessage, db
      ensures Valid() && db.Valid() && showAlert
      ensures saved.Some? <==> currentUserId.Some? && encodeError.None?
      ensures currentUserId.None? ==> alertMessage == LoginRequiredMessage
      ensures currentUserId.Some? && encodeError.Some? ==> alertMessage == SaveFailedPrefix + encodeError.value
      ensures saved.None? ==> db.docs == old(db.docs) && userInput == old(userInput) && note == old(note)
      ensures saved.Some? ==>
                && saved.value == TaskItem(freshId, old(userInput), selectionCategory.RawValue(),
                                           selectionStateCategory.RawValue(), selectionHour, selectDate,
                                           old(note), currentUserId.value)
                && db.docs == InsertById(old(db.docs), Document(newDocumentId, EncodeTask(saved.value)))
                && alertMessage == SavedMessage && userInput == "" && note == ""
    {
      match currentUserId
      case None =>
        alertMessage := LoginRequiredMessage;
        showAlert := true;
        saved := None;
      case Some(uid) =>
        var task := TaskItem(freshId, userInput, selectionCategory.RawValue(),
                             selectionStateCategory.RawValue(), selectionHour, selectDate, note, uid);
        match encodeError
        case Some(description) =>
          alertMessage := SaveFailedPrefix + description;
          showAlert := true;
          saved := None;
        case None =>
          db.AddDocument(newDocumentId, EncodeTask(task));
          alertMessage := SavedMessage;
          showAlert := true;
          userInput := "";
          note := "";
          saved := Some(task);
    }
  }

  /**
   * A saved record reads back as itself, with category and state among the
   * enumerations' raw values and the hour among the wheel's tags.
   */
  lemma SavedRecordIsWellFormed(t: TaskItem, c: Category, s: StateCategory)
    requires t.category == c.RawValue() && t.stateCategory == s.RawValue() && IsHourChoice(t.hour)
    ensures DecodeTask(EncodeTask(t)) == Some(t)
    ensures CategoryFromRaw(t.category) == Some(c) && StateCategoryFromRaw(t.stateCategory) == Some(s)
    ensures t.hour == UnknownHour || 1 <= t.hour <= 24
  {
    DecodeEncodeRoundTrip(t);
    CategoriesDistinct(c, c);
    StateCategoriesDistinct(s, s);
  }
}
