/**
 * The task record saved by the add screen and read back by the home and
 * summary screens: its two category enumerations, the hour choices, the
 * UUID it is stamped with, and its encoding as a document's field map.
 */
module Tasks {
  import opened Wrappers

  // ---------------------------------------------------------------------
  // Fixed-width integers and instants

  /** Swift's `Int` on a 64-bit platform, which is also the width of a stored integer. */
  type Int64 = n: int | -0x8000_0000_0000_0000 <= n < 0x8000_0000_0000_0000

  /** `Int.max`, the picker tag meaning "未知" (unknown). */
  const UnknownHour: Int64 := 0x7fff_ffff_ffff_ffff

  /** An instant on the time line; a stored timestamp holds it exactly. */
  datatype Date = Date(instant: int)

  // ---------------------------------------------------------------------
  // UUIDs

  predicate IsHexDigit(c: char) {
    ('0' <= c <= '9') || ('a' <= c <= 'f') || ('A' <= c <= 'F')
  }

  predicate IsUpperHexDigit(c: char) {
    ('0' <= c <= '9') || ('A' <= c <= 'F')
  }

  predicate IsHyphenPosition(i: int) {
    i == 8 || i == 13 || i == 18 || i == 23
  }

  /** The 8-4-4-4-12 hexadecimal layout that a UUID string must have. */
  predicate IsUuidText(s: string) {
    |s| == 36 && forall i | 0 <= i < 36 :: if IsHyphenPosition(i) then s[i] == '-' else IsHexDigit(s[i])
  }

  /** The layout written with upper-case digits, as `uuidString` produces it. */
  predicate IsCanonicalUuidText(s: string) {
    IsUuidText(s) && forall i | 0 <= i < |s| :: s[i] == '-' || IsUpperHexDigit(s[i])
  }

  /** A UUID, identified with its `uuidString`. */
  type Uuid = s: string | IsCanonicalUuidText(s) witness seq(36, i => if IsHyphenPosition(i) then '-' else '0')

  function UpperHex(c: char): (r: char)
    ensures IsHexDigit(c) ==> IsUpperHexDigit(r)
    ensures IsUpperHexDigit(c) || c == '-' ==> r == c
  {
    if 'a' <= c <= 'f' then (c as int - 'a' as int + 'A' as int) as char else c
  }

  /**
   * Reading a UUID back from its string: any string in the 8-4-4-4-12 layout,
   * in either case, and nothing else.
   */
  function ParseUuid(s: string): (r: Option<Uuid>)
    ensures r.Some? <==> IsUuidText(s)
    ensures r.Some? ==> forall i | 0 <= i < |s| :: r.value[i] == UpperHex(s[i])
  {
    if IsUuidText(s) then
      var u := seq(|s|, i requires 0 <= i < |s| => UpperHex(s[i]));
      assert IsCanonicalUuidText(u) by {
        forall i | 0 <= i < 36
          ensures if IsHyphenPosition(i) then u[i] == '-' else IsHexDigit(u[i])
        {
        }
      }
      Some(u)
    else
      None
  }

  /** A UUID's string reads back as the same UUID. */
  lemma ParseUuidRoundTrip(u: Uuid)
    ensures ParseUuid(u) == Some(u)
  {
    var r := ParseUuid(u);
    assert r.Some?;
    assert r.value == u by {
      forall i | 0 <= i < |u|
        ensures r.value[i] == u[i]
      {
        assert u[i] == '-' || IsUpperHexDigit(u[i]);
      }
    }
  }

  /** A string read as a UUID differs from it at most in the case of its letters. */
  lemma ParseUuidIgnoresCase(s: string, t: string)
    requires |s| == |t|
    requires forall i | 0 <= i < |s| :: UpperHex(s[i]) == UpperHex(t[i])
    requires IsUuidText(s) && IsUuidText(t)
    ensures ParseUuid(s) == ParseUuid(t)
  {
    var a, b := ParseUuid(s).value, ParseUuid(t).value;
    assert |a| == |b| == 36;
    assert forall i | 0 <= i < |a| :: a[i] == b[i];
    assert a == b;
  }

  // ---------------------------------------------------------------------
  // The two enumerations of a task

  datatype Category = Work | Home | Study {
    /** `rawValue` */
    function RawValue(): string {
      match this
      case Work => "工作"
      case Home => "家庭"
      case Study => "學習"
    }
  }

  /** `Category.allCases` */
  const AllCategories: seq<Category> := [Work, Home, Study]

  /** `Category(rawValue:)` */
  function CategoryFromRaw(s: string): (r: Option<Category>)
    ensures r.Some? ==> r.value.RawValue() == s
    ensures r.None? ==> forall c: Category :: c.RawValue() != s
  {
    if s == Work.RawValue() then Some(Work)
    else if s == Home.RawValue() then Some(Home)
    else if s == Study.RawValue() then Some(Study)
    else None
  }

  /** The three categories are listed once each and have distinct raw values. */
  lemma CategoriesDistinct(a: Category, b: Category)
    ensures a in AllCategories && |AllCategories| == 3
    ensures a.RawValue() == b.RawValue() <==> a == b
    ensures CategoryFromRaw(a.RawValue()) == Some(a)
  {
    if a != b {
      assert a.RawValue()[0] != b.RawValue()[0];
    }
  }

  datatype StateCategory = UrgentImportant | NotUrgentButImportant | NotImportantAndNotUrgent {
    /** `rawValue` */
    function RawValue(): string {
      match this
      case UrgentImportant => "緊急且重要"
      case NotUrgentButImportant => "不緊急但重要"
      case NotImportantAndNotUrgent => "不重要也不緊急"
    }
  }

  /** `StateCategory.allCases` */
  const AllStateCategories: seq<StateCategory> := [UrgentImportant, NotUrgentButImportant, NotImportantAndNotUrgent]

  /** `StateCategory(rawValue:)` */
  function StateCategoryFromRaw(s: string): (r: Option<StateCategory>)
    ensures r.Some? ==> r.value.RawValue() == s
    ensures r.None? ==> forall c: StateCategory :: c.RawValue() != s
  {
    if s == UrgentImportant.RawValue() then Some(UrgentImportant)
    else if s == NotUrgentButImportant.RawValue() then Some(NotUrgentButImportant)
    else if s == NotImportantAndNotUrgent.RawValue() then Some(NotImportantAndNotUrgent)
    else None
  }

  /** The three states are listed once each and have distinct raw values. */
  lemma StateCategoriesDistinct(a: StateCategory, b: StateCategory)
    ensures a in AllStateCategories && |AllStateCategories| == 3
    ensures a.RawValue() == b.RawValue() <==> a == b
    ensures StateCategoryFromRaw(a.RawValue()) == Some(a)
  {
    if a != b {
      assert |a.RawValue()| != |b.RawValue()|;
    }
  }

  // ---------------------------------------------------------------------
  // Hours

  /** The picker's tags: "未知" as `Int.max`, then 1 to 24 hours. */
  predicate IsHourChoice(h: int) {
    h == UnknownHour || 1 <= h <= 24
  }

  /** The tags in the order the wheel shows them. */
  function HourChoices(): (r: seq<Int64>)
    ensures |r| == 25 && r[0] == UnknownHour
    ensures forall h :: h in r <==> IsHourChoice(h)
  {
    var r := [UnknownHour] + seq(24, k requires 0 <= k < 24 => k + 1);
    forall h: Int64
      ensures h in r <==> IsHourChoice(h)
    {
      if 1 <= h <= 24 {
        assert r[h] == h;
      }
      if h in r {
        var k :| 0 <= k < |r| && r[k] == h;
        assert k == 0 || r[k] == k;
      }
    }
    r
  }

  // ---------------------------------------------------------------------
  // The record and its document encoding

  /** `TaskItem`: `category` and `stateCategory` hold raw values, not the enumerations. */
  datatype TaskItem = TaskItem(
    id: Uuid,
    title: string,
    category: string,
    stateCategory: string,
    hour: Int64,
    deadline: Date,
    note: string,
    userId: string)

  /** A stored field value; `OtherValue` stands for every type a task field never has. */
  datatype Value = StringValue(s: string) | IntegerValue(n: Int64) | TimestampValue(t: Date) | OtherValue

  const IdKey: string := "id"
  const TitleKey: string := "title"
  const CategoryKey: string := "category"
  const StateCategoryKey: string := "stateCategory"
  const HourKey: string := "hour"
  const DeadlineKey: string := "deadline"
  const NoteKey: string := "note"
  const UserIdKey: string := "userId"

  const TaskKeys: set<string> :=
    {IdKey, TitleKey, CategoryKey, StateCategoryKey, HourKey, DeadlineKey, NoteKey, UserIdKey}

  /** The field map written for a task: one key per property, the date as a timestamp. */
  function EncodeTask(t: TaskItem): (fields: map<string, Value>)
    ensures fields.Keys == TaskKeys
    ensures fields[UserIdKey] == StringValue(t.userId) && fields[IdKey] == StringValue(t.id)
  {
    map[IdKey := StringValue(t.id),
        TitleKey := StringValue(t.title),
        CategoryKey := StringValue(t.category),
        StateCategoryKey := StringValue(t.stateCategory),
        HourKey := IntegerValue(t.hour),
        DeadlineKey := TimestampValue(t.deadline),
        NoteKey := StringValue(t.note),
        UserIdKey := StringValue(t.userId)]
  }

  predicate HasString(fields: map<string, Value>, key: string) {
    key in fields && fields[key].StringValue?
  }

  /** Every key of the record present with its type, the id in the UUID layout. */
  predicate HasTaskFields(fields: map<string, Value>) {
    && HasString(fields, IdKey) && IsUuidText(fields[IdKey].s)
    && HasString(fields, TitleKey) && HasString(fields, CategoryKey)
    && HasString(fields, StateCategoryKey)
    && HourKey in fields && fields[HourKey].IntegerValue?
    && DeadlineKey in fields && fields[DeadlineKey].TimestampValue?
    && HasString(fields, NoteKey) && HasString(fields, UserIdKey)
  }

  /**
   * Decoding a field map as a task: every key present with its type, the id
   * a well-formed UUID string. Keys outside the record are ignored.
   */
  function DecodeTask(fields: map<string, Value>): (r: Option<TaskItem>)
    ensures r.Some? <==> HasTaskFields(fields)
    ensures r.Some? ==> fields[UserIdKey] == StringValue(r.value.userId)
  {
    if && HasString(fields, IdKey) && HasString(fields, TitleKey) && HasString(fields, CategoryKey)
       && HasString(fields, StateCategoryKey)
       && HourKey in fields && fields[HourKey].IntegerValue?
       && DeadlineKey in fields && fields[DeadlineKey].TimestampValue?
       && HasString(fields, NoteKey) && HasString(fields, UserIdKey)
    then
      match ParseUuid(fields[IdKey].s)
      case None => None
      case Some(id) =>
        Some(TaskItem(id, fields[TitleKey].s, fields[CategoryKey].s, fields[StateCategoryKey].s,
                      fields[HourKey].n, fields[DeadlineKey].t, fields[NoteKey].s, fields[UserIdKey].s))
    else
      None
  }

  /** A stored task reads back as itself. */
  lemma DecodeEncodeRoundTrip(t: TaskItem)
    ensures DecodeTask(EncodeTask(t)) == Some(t)
  {
    ParseUuidRoundTrip(t.id);
  }

  /** Decoding keeps every stored property; only the id's letter case may change. */
  lemma DecodeKeepsFields(fields: map<string, Value>, t: TaskItem)
    requires DecodeTask(fields) == Some(t)
    ensures forall k | k in TaskKeys && k != IdKey :: EncodeTask(t)[k] == fields[k]
    ensures ParseUuid(fields[IdKey].s) == Some(t.id)
  {
  }
}
