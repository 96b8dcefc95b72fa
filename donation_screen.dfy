/**
 * The donation screen: programs filtered by the selected donation type, each
 * shown with its progress towards its target, under capitalised type labels.
 */
module Donation {
  import opened Seqs
  import opened Text

  datatype DonationType = Zakat | Infaq | Wakaf | Sedekah

  /** The type's name as the screen spells it: non-empty and lower case. */
  function TypeName(t: DonationType): (name: string)
    ensures |name| > 0 && IsLowerCase(name)
  {
    match t
    case Zakat => "zakat"
    case Infaq => "infaq"
    case Wakaf => "wakaf"
    case Sedekah => "sedekah"
  }

  /** Different types have different names. */
  lemma TypeNamesDistinct(t: DonationType, u: DonationType)
    requires t != u
    ensures TypeName(t) != TypeName(u)
  {
  }

  /** The type buttons, in the order the screen offers them. */
  const OfferedTypes: seq<DonationType> := [Zakat, Infaq, Wakaf, Sedekah]

  /** The type selected when the screen opens. */
  const DefaultType: DonationType := Zakat

  datatype DonationProgram = DonationProgram(
    id: string,
    programType: DonationType,
    title: string,
    description: string,
    image: string,
    target: int,
    collected: int,
    donors: int,
    daysLeft: int)

  /** The programs the screen lists: each has a positive target and one of the offered types. */
  function MockPrograms(): (programs: seq<DonationProgram>)
    ensures |programs| == 3
    ensures forall i :: 0 <= i < |programs| ==> programs[i].target > 0 && programs[i].programType in OfferedTypes
  {
    [ DonationProgram("1", Zakat, "Zakat untuk Dhuafa",
                      "Membantu saudara kita yang membutuhkan melalui program zakat",
                      "https://example.com/zakat1.jpg", 100000000, 75000000, 150, 15),
      DonationProgram("2", Wakaf, "Wakaf Pembangunan Masjid", "Pembangunan masjid untuk masyarakat",
                      "https://example.com/wakaf1.jpg", 500000000, 350000000, 280, 45),
      DonationProgram("3", Infaq, "Infaq Pendidikan", "Membantu biaya pendidikan anak yatim",
                      "https://example.com/infaq1.jpg", 200000000, 125000000, 200, 30) ]
  }

  /** The programs, in their order, whose type is the selected one. */
  function ProgramsOfType(programs: seq<DonationProgram>, selectedType: DonationType)
    : (r: seq<DonationProgram>)
    ensures IsSubsequence(r, programs)
    ensures forall p {:trigger p in r} :: p in r <==> p in programs && p.programType == selectedType
    ensures forall p {:trigger multiset(r)[p]} ::
      multiset(r)[p] == if p.programType == selectedType then multiset(programs)[p] else 0
  {
    Filter(programs, (p: DonationProgram) => p.programType == selectedType)
  }

  /** The default selection lists exactly program '1'; 'sedekah' lists nothing. */
  lemma MockSelections()
    ensures ProgramsOfType(MockPrograms(), DefaultType) == [MockPrograms()[0]]
    ensures MockPrograms()[0].id == "1"
    ensures ProgramsOfType(MockPrograms(), Sedekah) == []
    ensures DefaultType in OfferedTypes && Sedekah in OfferedTypes
  {
    var programs := MockPrograms();
    FilterKeepsNone(programs[1..], (p: DonationProgram) => p.programType == Zakat);
    FilterKeepsNone(programs, (p: DonationProgram) => p.programType == Sedekah);
  }

  /**
   * `calculateProgress`: the collected amount as a percentage of the target.
   * For a positive target it is at most 100 exactly when the target has not
   * been exceeded, and exactly 100 when it has just been met.
   */
  function Progress(collected: int, target: int): (r: real)
    requires target != 0
    ensures r * target as real == collected as real * 100.0
    ensures target > 0 ==> (r <= 100.0 <==> collected <= target)
    ensures target > 0 ==> (r == 100.0 <==> collected == target)
    ensures target > 0 && collected >= 0 ==> r >= 0.0
  {
    var r := (collected as real / target as real) * 100.0;
    assert r * target as real == collected as real * 100.0;
    r
  }

  /** Every mock program is still short of its target. */
  lemma MockProgramsBelowTarget()
    ensures forall i :: 0 <= i < |MockPrograms()| ==>
      Progress(MockPrograms()[i].collected, MockPrograms()[i].target) < 100.0
  {
  }

  /**
   * The label on a type button: the first character upper-cased, followed by
   * the rest unchanged.
   */
  function Capitalize(s: string): (r: string)
    ensures |r| == |s|
    ensures |s| > 0 ==> r[0] == ToUpperChar(s[0]) && r[1..] == s[1..]
  {
    if s == [] then [] else [ToUpperChar(s[0])] + s[1..]
  }

  /** The label on a type button: as long as the name, starting with a capital letter. */
  function TypeLabel(t: DonationType): (text: string)
    ensures |text| == |TypeName(t)| && IsUpperChar(text[0])
    ensures text[1..] == TypeName(t)[1..]
  {
    Capitalize(TypeName(t))
  }

  /** The four buttons read 'Zakat', 'Infaq', 'Wakaf' and 'Sedekah'. */
  lemma TypeLabels()
    ensures TypeLabel(Zakat) == "Zakat" && TypeLabel(Infaq) == "Infaq"
    ensures TypeLabel(Wakaf) == "Wakaf" && TypeLabel(Sedekah) == "Sedekah"
  {
  }

  /** Lower-casing a capitalised string without capitals gives the string back. */
  lemma CapitalizeRoundTrip(s: string)
    requires IsLowerCase(s)
    ensures ToLower(Capitalize(s)) == s
  {
    if s != [] {
      var r := ToLower(Capitalize(s));
      assert r[0] == ToLowerChar(ToUpperChar(s[0]));
      forall i | 1 <= i < |s|
        ensures r[i] == s[i]
      {
        assert Capitalize(s)[i] == s[i];
      }
    }
  }

  /** Lower-casing a label gives back the type's name, so distinct types get distinct labels. */
  lemma LabelRoundTrip(t: DonationType)
    ensures ToLower(TypeLabel(t)) == TypeName(t)
  {
    CapitalizeRoundTrip(TypeName(t));
  }
}
