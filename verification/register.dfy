/** The membership registration page: step 1 picks a classification, step 2
    fills a large flat form (plus five nested education records and eight
    checkboxes) and submits it as one member document. The photo upload and
    the document write are parameters; so are today's date and the date the
    browser parses out of `dateOfBirth`. */
module Register {
  import opened Common
  import opened Documents

  // ---------------------------------------------------------------------------
  // The blank form
  // ---------------------------------------------------------------------------

  const ChapterFields: set<string> := {
    "memberClassification", "sponsor", "chapter", "provinceCity", "region", "cpTelNo"}

  const PersonalFields: set<string> := {
    "lastName", "firstName", "middleName", "pseudonym", "provincialAddress", "cityAddress",
    "officeBusinessAddress", "occupation", "dateOfBirth", "placeOfBirth", "email", "age"}

  const ProfileFields: set<string> := {
    "sex", "civilStatus", "religion", "dialect", "height", "weight", "bloodType", "phltNo", "sssNo"}

  const FamilyFields: set<string> := {
    "spouseName", "numberOfChildren", "spouseOccupation", "spouseCompany", "fatherName", "motherName"}

  const ContactFields: set<string> := {
    "emergencyContactName", "emergencyRelationship", "emergencyAddress", "emergencyTelCpNo",
    "reference1Name", "reference1Address", "reference1Contact",
    "reference2Name", "reference2Address", "reference2Contact",
    "reference3Name", "reference3Address", "reference3Contact"}

  /** The 46 fields of the form that text inputs fill. */
  const TextFields: set<string> := ChapterFields + PersonalFields + ProfileFields + FamilyFields + ContactFields

  const EducationLevels: set<string> := {"elementary", "secondary", "vocational", "college", "graduate"}

  const CheckboxFields: set<string> := {
    "hasBarangayClearance", "hasPNPClearance", "hasNBIClearance", "has2x2Photos",
    "paidMembershipFee", "paidIDFee", "paidInsurance", "paidDamayan"}

  const BlankLevel: map<string, string> := map["school" := "", "course" := "", "dateCompleted" := ""]

  /** Every text field `''`, every education level blank, every box unchecked. */
  const BlankForm: Doc :=
    (map k | k in TextFields :: Text("")) +
    (map k | k in EducationLevels :: Level(BlankLevel)) +
    (map k | k in CheckboxFields :: Flag(false))

  /** The three classification buttons of step 1. */
  const Classifications: set<string> := {"Regular", "Associate", "Honorary"}

  // ---------------------------------------------------------------------------
  // Field updates
  // ---------------------------------------------------------------------------

  /** `handleChange`: sets the named field to `checked` for a checkbox and to
      `value` otherwise; every other field is left as it was. */
  function Changed(form: Doc, name: string, inputType: string, value: string, checked: bool): (r: Doc)
    ensures r.Keys == form.Keys + {name}
    ensures inputType == "checkbox" ==> r[name] == Flag(checked)
    ensures inputType != "checkbox" ==> r[name] == Text(value)
    ensures forall k :: k in form && k != name ==> r[k] == form[k]
  {
    form[name := if inputType == "checkbox" then Flag(checked) else Text(value)]
  }

  /** The fields `{ ...formData[level] }` copies: those of an education
      record, and none when the level holds anything else. */
  function LevelFields(form: Doc, level: string): map<string, string>
  {
    if level in form && form[level].Level? then form[level].fields else map[]
  }

  /** `handleEducationChange`: sets one field of one education level; the
      level's other fields and every other level and field stay as they were. */
  function EducationChanged(form: Doc, level: string, field: string, value: string): (r: Doc)
    ensures r.Keys == form.Keys + {level}
    ensures r[level].Level? && r[level].fields.Keys == LevelFields(form, level).Keys + {field}
    ensures r[level].fields[field] == value
    ensures forall f :: f in LevelFields(form, level) && f != field ==> r[level].fields[f] == LevelFields(form, level)[f]
    ensures forall k :: k in form && k != level ==> r[k] == form[k]
  {
    form[level := Level(LevelFields(form, level)[field := value])]
  }

  /** A later edit of the same field overrides an earlier one. */
  lemma LastEditWins(form: Doc, name: string, t1: string, v1: string, c1: bool, t2: string, v2: string, c2: bool)
    ensures Changed(Changed(form, name, t1, v1, c1), name, t2, v2, c2) == Changed(form, name, t2, v2, c2)
  {
  }

  /** Edits of two different fields commute. */
  lemma {:induction false} EditsOfDifferentFieldsCommute(
    form: Doc, n1: string, t1: string, v1: string, c1: bool, n2: string, t2: string, v2: string, c2: bool)
    requires n1 != n2
    ensures Changed(Changed(form, n1, t1, v1, c1), n2, t2, v2, c2) ==
            Changed(Changed(form, n2, t2, v2, c2), n1, t1, v1, c1)
  {
    var a := Changed(Changed(form, n1, t1, v1, c1), n2, t2, v2, c2);
    var b := Changed(Changed(form, n2, t2, v2, c2), n1, t1, v1, c1);
    assert a.Keys == b.Keys;
    forall k | k in a ensures a[k] == b[k] {
    }
  }

  /** Editing a field the form already has keeps the set of fields: the
      inputs of step 2 all name fields of the blank form. */
  lemma EditsKeepTheFields(form: Doc, name: string, inputType: string, value: string, checked: bool,
                           level: string, field: string, text: string)
    requires name in form && level in form
    ensures Changed(form, name, inputType, value, checked).Keys == form.Keys
    ensures EducationChanged(form, level, field, text).Keys == form.Keys
  {
  }

  // ---------------------------------------------------------------------------
  // Age and the stored document
  // ---------------------------------------------------------------------------

  datatype Date = Date(year: int, month: int, day: int)

  /** The stored age: the entered age when it is truthy; otherwise, when a
      date of birth was entered, this year minus the birth year (no month or
      day adjustment); otherwise the entered value unchanged. */
  function DerivedAge(form: Doc, today: Date, birth: Date): (age: Value)
    ensures Truthy(Get(form, "age")) ==> age == Get(form, "age")
    ensures !Truthy(Get(form, "age")) && Truthy(Get(form, "dateOfBirth")) ==> age == Number(today.year - birth.year)
    ensures !Truthy(Get(form, "age")) && !Truthy(Get(form, "dateOfBirth")) ==> age == Get(form, "age")
  {
    var entered := Get(form, "age");
    if !Truthy(entered) && Truthy(Get(form, "dateOfBirth")) then Number(today.year - birth.year) else entered
  }

  /** `(month, day)` of `a` comes before that of `b` within a year. */
  predicate EarlierInYear(a: Date, b: Date)
  {
    a.month < b.month || (a.month == b.month && a.day < b.day)
  }

  /** Completed years of life on `today` for someone born on `birth`. */
  function AgeInYears(birth: Date, today: Date): int
  {
    today.year - birth.year - (if EarlierInYear(today, birth) then 1 else 0)
  }

  /** The derived age overstates the completed years by one exactly when the
      birthday has not yet come round this year. */
  lemma DerivedAgeOverstatesBeforeBirthday(form: Doc, today: Date, birth: Date)
    requires !Truthy(Get(form, "age")) && Truthy(Get(form, "dateOfBirth"))
    ensures DerivedAge(form, today, birth).Number?
    ensures DerivedAge(form, today, birth).n - AgeInYears(birth, today) == (if EarlierInYear(today, birth) then 1 else 0)
  {
  }

  const Overridden: set<string> := {"age", "photoURL", "status", "registrationDate", "createdAt"}

  /** The member document: the form, then `age`, `photoURL`, `status` forced
      to `'Active'`, and two server timestamps. Later keys win. */
  function MemberDocument(form: Doc, age: Value, photoURL: string, stamp: int): (d: Doc)
    ensures d.Keys == form.Keys + Overridden
    ensures d["status"] == Text("Active")
    ensures d["age"] == age && d["photoURL"] == Text(photoURL)
    ensures d["registrationDate"] == Stamp(stamp) && d["createdAt"] == Stamp(stamp)
    ensures forall k :: k in form && k !in Overridden ==> d[k] == form[k]
  {
    form["age" := age]["photoURL" := Text(photoURL)]["status" := Text("Active")]
        ["registrationDate" := Stamp(stamp)]["createdAt" := Stamp(stamp)]
  }

  /** The registration document never carries a `memberType` unless the form
      itself had one; the blank form and every edit of its fields have none. */
  lemma {:induction false} NoMemberTypeStored(form: Doc, age: Value, photoURL: string, stamp: int)
    requires form.Keys == BlankForm.Keys
    ensures "memberType" !in MemberDocument(form, age, photoURL, stamp)
  {
    BlankFormFields();
    NoMemberTypeField();
    assert "memberType" !in form;
    assert "memberType" !in Overridden;
  }

  lemma BlankFormFields()
    ensures BlankForm.Keys == TextFields + EducationLevels + CheckboxFields
  {
  }

  lemma {:induction false} NoMemberTypeField()
    ensures "memberType" !in TextFields + EducationLevels + CheckboxFields
  {
    assert "memberType" !in ChapterFields;
    assert "memberType" !in PersonalFields;
    assert "memberType" !in ProfileFields;
    assert "memberType" !in FamilyFields;
    assert "memberType" !in ContactFields;
    assert "memberType" !in EducationLevels;
    assert "memberType" !in CheckboxFields;
  }

  // ---------------------------------------------------------------------------
  // The page
  // ---------------------------------------------------------------------------

  datatype RegisterState = RegisterState(
    step: int, memberType: string, photoFile: Option<File>, formData: Doc, notice: Notice)

  const InitialState := RegisterState(1, "", None, BlankForm, NoNotice)

  class RegisterPage {
    var step: int
    var memberType: string
    var photoFile: Option<File>
    var formData: Doc
    var notice: Notice

    /** Step 1 or step 2, and the form has exactly the blank form's fields:
        every input of step 2 names one of them. */
    ghost predicate Valid()
      reads this
    {
      (step == 1 || step == 2) && formData.Keys == BlankForm.Keys
    }

    function View(): RegisterState
      reads this
    {
      RegisterState(step, memberType, photoFile, formData, notice)
    }

    constructor ()
      ensures Valid() && View() == InitialState
    {
      step, memberType, photoFile, formData, notice := 1, "", None, BlankForm, NoNotice;
    }

    /** `handleMemberTypeSelection`: records the classification, copies it
        into the form and moves to step 2; no other field changes. */
    method SelectMemberType(kind: string)
      requires Valid() && kind in Classifications
      modifies this
      ensures Valid()
      ensures View() == old(View()).(step := 2, memberType := kind,
                                     formData := Changed(old(formData), "memberClassification", "button", kind, false))
    {
      assert "memberClassification" in ChapterFields;
      memberType := kind;
      formData := Changed(formData, "memberClassification", "button", kind, false);
      step := 2;
    }

    /** "Change Member Type": back to step 1, the form kept as it is. */
    method ChangeMemberType()
      requires Valid()
      modifies this
      ensures Valid()
      ensures View() == old(View()).(step := 1)
    {
      step := 1;
    }

    /** `handleChange`, fired by an input of step 2; each names a field of
        the blank form. */
    method HandleChange(name: string, inputType: string, value: string, checked: bool)
      requires Valid() && name in BlankForm
      modifies this
      ensures Valid()
      ensures View() == old(View()).(formData := Changed(old(formData), name, inputType, value, checked))
    {
      formData := Changed(formData, name, inputType, value, checked);
    }

    /** `handleEducationChange`, fired by an input of one of the five
        education rows. */
    method HandleEducationChange(level: string, field: string, value: string)
      requires Valid() && level in EducationLevels
      modifies this
      ensures Valid()
      ensures View() == old(View()).(formData := EducationChanged(old(formData), level, field, value))
    {
      formData := EducationChanged(formData, level, field, value);
    }

    /** `handlePhotoChange`: a chosen file replaces the current one; an empty
        choice changes nothing. */
    method ChoosePhoto(file: Option<File>)
      requires Valid()
      modifies this
      ensures Valid()
      ensures View() == old(View()).(photoFile := if file.Some? then file else old(photoFile))
    {
      if file.Some? {
        photoFile := file;
      }
    }

    /** `handleSubmit`: uploads the photo if one was chosen, derives the age,
        writes the member document, then returns to a blank step 1. If the
        upload or the write fails, only the message changes. */
    method HandleSubmit(upload: Option<string>, writeOk: bool, today: Date, birth: Date, stamp: int)
      returns (written: Option<Doc>)
      requires Valid()
      modifies this
      ensures Valid()
      ensures var url := UploadedUrl(old(photoFile), upload);
              written == if url.Some? && writeOk
                then Some(MemberDocument(old(formData), DerivedAge(old(formData), today, birth), url.value, stamp))
                else None
      ensures written.Some? ==> "memberType" !in written.value
      ensures written.Some? ==> View() == InitialState.(
                notice := Notice(Success, "Registration successful! Welcome to MAAGAP family!"))
      ensures written.None? ==> View() == old(View()).(
                notice := Notice(Failure, "Registration failed. Please try again."))
    {
      var url := UploadedUrl(photoFile, upload);
      if url.Some? && writeOk {
        var age := DerivedAge(formData, today, birth);
        NoMemberTypeStored(formData, age, url.value, stamp);
        written := Some(MemberDocument(formData, age, url.value, stamp));
        Reset();
        notice := Notice(Success, "Registration successful! Welcome to MAAGAP family!");
      } else {
        written := None;
        notice := Notice(Failure, "Registration failed. Please try again.");
      }
    }

    /** Back to a blank step 1, keeping the message. */
    method Reset()
      modifies this
      ensures Valid()
      ensures View() == InitialState.(notice := old(notice))
    {
      step, memberType, photoFile, formData := 1, "", None, BlankForm;
    }
  }
}
