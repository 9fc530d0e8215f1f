/** The kit and basecalling-option resolver of basecalling_pipeline.py: the two
    prompt answers are normalised, the option must be HAC or SUP, and the kit is
    looked up in a fixed table of seven kits that gives the barcode flag, the
    reference and the basecaller configuration. */
module Kits {
  import opened Outcomes
  import opened Text

  datatype Kit = LSK114 | RBK24 | RBK96 | NBD24 | NBD96 | RNA | ULK114

  /** The basecalling accuracy: high-accuracy or super-accuracy model. */
  datatype Accuracy = HAC | SUP

  function KitName(k: Kit): string
  {
    match k
    case LSK114 => "LSK114"
    case RBK24 => "RBK24"
    case RBK96 => "RBK96"
    case NBD24 => "NBD24"
    case NBD96 => "NBD96"
    case RNA => "RNA"
    case ULK114 => "ULK114"
  }

  function AccuracyName(a: Accuracy): string
  {
    match a
    case HAC => "HAC"
    case SUP => "SUP"
  }

  /** The keys of the kit table, in the order the table lists them. */
  const KitOrder: seq<Kit> := [LSK114, RBK24, RBK96, NBD24, NBD96, RNA, ULK114]

  /** `', '.join(kit_settings.keys())`: the choices named by the invalid-kit message. */
  function KitChoices(): string
  {
    Join(seq(|KitOrder|, i requires 0 <= i < |KitOrder| => KitName(KitOrder[i])), ", ")
  }

  /** `option in ["HAC", "SUP"]`, for an already normalised option. */
  function ParseAccuracy(s: string): (r: Option<Accuracy>)
    ensures r.Some? <==> s == "HAC" || s == "SUP"
    ensures r.Some? ==> AccuracyName(r.value) == s
  {
    if s == "HAC" then Some(HAC)
    else if s == "SUP" then Some(SUP)
    else None
  }

  /** `kit in kit_settings`, for an already normalised kit name. */
  function ParseKit(s: string): (r: Option<Kit>)
    ensures r.Some? ==> KitName(r.value) == s
    ensures r.None? <==> forall k: Kit :: KitName(k) != s
  {
    if s == "LSK114" then Some(LSK114)
    else if s == "RBK24" then Some(RBK24)
    else if s == "RBK96" then Some(RBK96)
    else if s == "NBD24" then Some(NBD24)
    else if s == "NBD96" then Some(NBD96)
    else if s == "RNA" then Some(RNA)
    else if s == "ULK114" then Some(ULK114)
    else
      KitNameIsOneOfSeven(s);
      None
  }

  /** A string that is none of the seven names is the name of no kit. */
  lemma KitNameIsOneOfSeven(s: string)
    requires s !in {"LSK114", "RBK24", "RBK96", "NBD24", "NBD96", "RNA", "ULK114"}
    ensures forall k: Kit :: KitName(k) != s
  {
    forall k: Kit ensures KitName(k) != s {
      match k
      case LSK114 => case RBK24 => case RBK96 => case NBD24 => case NBD96 =>
      case RNA => case ULK114 =>
    }
  }

  /** Each kit name reads back as its kit. */
  lemma ParseKitName(k: Kit)
    ensures ParseKit(KitName(k)) == Some(k)
  {
  }

  /** One entry of the kit table. */
  datatype KitProfile = KitProfile(barcodeFlag: string, ref: string, config: string)

  const HumanRef: string := "/data/refs/GCA_000001405.15_GRCh38_no_alt_analysis_set.fna.mmi"
  const LambdaRef: string := "/data/refs/lambda_757a991a.fasta"
  const RnaRef: string := "/data/refs/RNA_YHR174W.fasta"
  const ConfigDir: string := "/opt/ont/dorado/data/"
  const DnaModel: string := "dna_r10.4.1_e8.2_400bps_5khz"
  const RnaModel: string := "rna_rp4_130bps"

  /** `kit_settings[kit]["barcode_flag"]` (line 124). Only the three kits without
      barcodes have an empty flag; the others name the SQK kit spelt from the kit
      name, e.g. RBK24 gives 'SQK-RBK114-24'. */
  function BarcodeFlag(k: Kit): (flag: string)
    ensures flag == "" <==> k in {LSK114, RNA, ULK114}
    ensures flag != "" ==> flag == "--barcode_kits 'SQK-" + KitName(k)[..3] + "114-" + KitName(k)[3..] + "'"
  {
    match k
    case RBK24 => "--barcode_kits 'SQK-RBK114-24'"
    case RBK96 => "--barcode_kits 'SQK-RBK114-96'"
    case NBD24 => "--barcode_kits 'SQK-NBD114-24'"
    case NBD96 => "--barcode_kits 'SQK-NBD114-96'"
    case _ => ""
  }

  /** `kit_settings[kit]["ref"]` (line 125): the RNA reference for RNA, the lambda
      reference for the two rapid kits, the human reference for the other four. */
  function Reference(k: Kit): (ref: string)
    ensures ref == RnaRef <==> k == RNA
    ensures ref == LambdaRef <==> k in {RBK24, RBK96}
    ensures ref == HumanRef <==> k in {LSK114, NBD24, NBD96, ULK114}
  {
    match k
    case RNA => RnaRef
    case RBK24 | RBK96 => LambdaRef
    case _ => HumanRef
  }

  /** `kit_settings[kit]["config"]` (line 126): the RNA model for RNA, the DNA model
      for every other kit, each with the option in lower case. */
  function Config(k: Kit, a: Accuracy): (config: string)
    ensures config == ConfigDir + (if k == RNA then RnaModel else DnaModel) + "_" + Lower(AccuracyName(a)) + ".cfg"
    ensures Upper(Lower(AccuracyName(a))) == AccuracyName(a)
  {
    var option := Lower(AccuracyName(a));
    assert option == if a == HAC then "hac" else "sup";
    match k
    case RNA => ConfigDir + RnaModel + "_" + option + ".cfg"
    case _ => ConfigDir + DnaModel + "_" + option + ".cfg"
  }

  /** `kit_settings[kit]`, the table built with the validated option. */
  function Profile(k: Kit, a: Accuracy): KitProfile
  {
    KitProfile(BarcodeFlag(k), Reference(k), Config(k, a))
  }

  /** The configuration names the option: the two options give different files. */
  lemma ConfigTellsOptionsApart(k: Kit)
    ensures Config(k, HAC) != Config(k, SUP)
  {
    var hac, sup := Lower(AccuracyName(HAC)), Lower(AccuracyName(SUP));
    var h, s := Config(k, HAC), Config(k, SUP);
    var model := ConfigDir + (if k == RNA then RnaModel else DnaModel) + "_";
    assert h[|model|..|model| + 3] == hac && s[|model|..|model| + 3] == sup;
    assert Upper(hac) != Upper(sup) by {
      assert AccuracyName(HAC)[0] != AccuracyName(SUP)[0];
    }
  }

  datatype Resolved = Resolved(kit: Kit, accuracy: Accuracy, profile: KitProfile)

  /** Lines 15-63: normalise both answers, reject an option other than HAC or SUP (before
      the kit is looked at), then reject a kit that is not in the table. */
  function Resolve(kitAnswer: string, optionAnswer: string): (r: Result<Resolved>)
    ensures r.Ok? <==> (Normalize(optionAnswer) == "HAC" || Normalize(optionAnswer) == "SUP")
                       && exists k: Kit :: KitName(k) == Normalize(kitAnswer)
    ensures r == Err(InvalidOption) <==> !(Normalize(optionAnswer) == "HAC" || Normalize(optionAnswer) == "SUP")
    ensures r.Err? && (Normalize(optionAnswer) == "HAC" || Normalize(optionAnswer) == "SUP") ==>
              r == Err(InvalidKit(Normalize(kitAnswer), KitChoices()))
    ensures r.Ok? ==> KitName(r.value.kit) == Normalize(kitAnswer)
                      && AccuracyName(r.value.accuracy) == Normalize(optionAnswer)
                      && r.value.profile == Profile(r.value.kit, r.value.accuracy)
  {
    var kit := Normalize(kitAnswer);
    var option := Normalize(optionAnswer);
    match ParseAccuracy(option)
    case None => Err(InvalidOption)
    case Some(a) =>
      match ParseKit(kit)
      case None => Err(InvalidKit(kit, KitChoices()))
      case Some(k) => Ok(Resolved(k, a, Profile(k, a)))
  }

  /** The answers may be typed in any letter case. */
  lemma ResolveIgnoresCase(kitAnswer: string, optionAnswer: string)
    ensures Resolve(Lower(kitAnswer), Lower(optionAnswer)) == Resolve(kitAnswer, optionAnswer)
  {
    NormalizeIgnoresCase(kitAnswer);
    NormalizeIgnoresCase(optionAnswer);
  }

  /** An invalid option is reported whatever the kit answer is. */
  lemma OptionCheckedFirst(kitAnswer: string, otherKit: string, optionAnswer: string)
    requires Resolve(kitAnswer, optionAnswer) == Err(InvalidOption)
    ensures Resolve(otherKit, optionAnswer) == Err(InvalidOption)
  {
  }
}
