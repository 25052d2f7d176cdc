/** The five option enumerations. At run time each variant is its string
    label, and the labels are what the prompt text and the `switch`
    lookups see. */
module Types {
  import opened Text

  datatype ClothingCategory = Shirt | Kurta | TShirt | Dress | Jacket | Saree {
    function Label(): string {
      match this
      case Shirt => "Shirt"
      case Kurta => "Kurta"
      case TShirt => "T-Shirt"
      case Dress => "Dress"
      case Jacket => "Jacket"
      case Saree => "Saree"
    }
  }

  datatype ModelPose = Standing | Walking | Sitting | Action | HandsOnHips | Leaning | LookingAway {
    function Label(): string {
      match this
      case Standing => "Standing"
      case Walking => "Walking"
      case Sitting => "Sitting"
      case Action => "Dynamic Action"
      case HandsOnHips => "Hands on Hips"
      case Leaning => "Leaning"
      case LookingAway => "Looking Away"
    }
  }

  datatype BackgroundStyle = Studio | Outdoor | Abstract {
    function Label(): string {
      match this
      case Studio => "Studio"
      case Outdoor => "Outdoor"
      case Abstract => "Abstract"
    }
  }

  datatype ModelGender = Female | Male | Unspecified {
    function Label(): string {
      match this
      case Female => "Female"
      case Male => "Male"
      case Unspecified => "Unspecified"
    }
  }

  datatype ModelAppearance = Indian {
    function Label(): string {
      match this
      case Indian => "Indian"
    }
  }

  /** Every variant of each enumeration, in declaration order. */
  const AllCategories: seq<ClothingCategory> := [Shirt, Kurta, TShirt, Dress, Jacket, Saree]
  const AllPoses: seq<ModelPose> := [Standing, Walking, Sitting, Action, HandsOnHips, Leaning, LookingAway]
  const AllBackgrounds: seq<BackgroundStyle> := [Studio, Outdoor, Abstract]
  const AllGenders: seq<ModelGender> := [Female, Male, Unspecified]
  const AllAppearances: seq<ModelAppearance> := [Indian]

  /** Each list names every variant once, so each enumeration has exactly
      that many variants. */
  lemma Enumerations()
    ensures |AllCategories| == 6 && |AllPoses| == 7 && |AllBackgrounds| == 3
    ensures |AllGenders| == 3 && |AllAppearances| == 1
    ensures forall c: ClothingCategory :: c in AllCategories
    ensures forall p: ModelPose :: p in AllPoses
    ensures forall b: BackgroundStyle :: b in AllBackgrounds
    ensures forall g: ModelGender :: g in AllGenders
    ensures forall a: ModelAppearance :: a in AllAppearances
    ensures forall i, j :: 0 <= i < j < |AllCategories| ==> AllCategories[i] != AllCategories[j]
    ensures forall i, j :: 0 <= i < j < |AllPoses| ==> AllPoses[i] != AllPoses[j]
    ensures forall i, j :: 0 <= i < j < |AllBackgrounds| ==> AllBackgrounds[i] != AllBackgrounds[j]
    ensures forall i, j :: 0 <= i < j < |AllGenders| ==> AllGenders[i] != AllGenders[j]
  {
    forall c: ClothingCategory ensures c in AllCategories {
      match c
      case Shirt => assert AllCategories[0] == c;
      case Kurta => assert AllCategories[1] == c;
      case TShirt => assert AllCategories[2] == c;
      case Dress => assert AllCategories[3] == c;
      case Jacket => assert AllCategories[4] == c;
      case Saree => assert AllCategories[5] == c;
    }
    forall p: ModelPose ensures p in AllPoses {
      match p
      case Standing => assert AllPoses[0] == p;
      case Walking => assert AllPoses[1] == p;
      case Sitting => assert AllPoses[2] == p;
      case Action => assert AllPoses[3] == p;
      case HandsOnHips => assert AllPoses[4] == p;
      case Leaning => assert AllPoses[5] == p;
      case LookingAway => assert AllPoses[6] == p;
    }
    forall b: BackgroundStyle ensures b in AllBackgrounds {
      match b
      case Studio => assert AllBackgrounds[0] == b;
      case Outdoor => assert AllBackgrounds[1] == b;
      case Abstract => assert AllBackgrounds[2] == b;
    }
    forall g: ModelGender ensures g in AllGenders {
      match g
      case Female => assert AllGenders[0] == g;
      case Male => assert AllGenders[1] == g;
      case Unspecified => assert AllGenders[2] == g;
    }
    forall a: ModelAppearance ensures a in AllAppearances {
      assert AllAppearances[0] == a;
    }
  }

  /** Labels are pairwise distinct within each enumeration, so a `switch`
      on the label string picks out exactly one variant. */
  lemma LabelsDistinct()
    ensures forall c: ClothingCategory, d: ClothingCategory :: c.Label() == d.Label() ==> c == d
    ensures forall p: ModelPose, q: ModelPose :: p.Label() == q.Label() ==> p == q
    ensures forall b: BackgroundStyle, e: BackgroundStyle :: b.Label() == e.Label() ==> b == e
    ensures forall g: ModelGender, h: ModelGender :: g.Label() == h.Label() ==> g == h
  {
  }

  /** The labels that are not single capitalised words. */
  lemma SpecialLabels()
    ensures TShirt.Label() == "T-Shirt"
    ensures Action.Label() == "Dynamic Action"
    ensures HandsOnHips.Label() == "Hands on Hips"
    ensures LookingAway.Label() == "Looking Away"
  {
  }

  /** Lower-casing the ASCII gender labels gives the words the prompt uses. */
  lemma {:induction false} LowerGenderLabels()
    ensures LowerAscii(Female.Label()) == "female"
    ensures LowerAscii(Male.Label()) == "male"
    ensures LowerAscii(Unspecified.Label()) == "unspecified"
  {
    LowerAsciiOf("Female", "female");
    LowerAsciiOf("Male", "male");
    LowerAsciiOf("Unspecified", "unspecified");
  }
}
