/** The three prompt composers of the Gemini service: pure templates over the
    address and the preference payload. Being functions, they are deterministic
    in their inputs. */
module Prompts {
  import opened Preferences
  import opened Text
  import opened Wrappers

  // ---- Fixed template text ----

  const CameraBasePrompt: string :=
      "\n"
      + "この不動産チラシの画像を詳しく分析してください。\n"
      + "\n"
      + "分析項目：\n"
      + "1. 間取り・部屋の構造\n"
      + "2. 設備・仕様（キッチン、バス、トイレ、収納等）\n"
      + "3. 内装・状態（壁紙、床材、清潔さ等）\n"
      + "4. 採光・通風\n"
      + "5. 住みやすさの総合評価\n"
      + "\n"
  const CameraGenericSentence: string :=
      "\n"
      + "一般的な観点から客観的に分析してください。"
  const CameraPreferenceHead: string :=
      "\n"
      + "【個人化分析】\n"
      + "ユーザーの好み設定：\n"
  const CameraPreferenceTail: string :=
      "\n"
      + "この好み設定を考慮して、「あなたの価値観に合った」観点から物件を評価してください。\n"
  const AddressHead: string :=
      "\n"
      + "住所「"
  const AreaBasicTail: string :=
      "」の住環境を客観的に分析してください。\n"
      + "\n"
      + "分析項目：\n"
      + "1. 交通アクセス（最寄り駅、バス路線、主要エリアへのアクセス）\n"
      + "2. 生活施設（スーパー、コンビニ、銀行、郵便局）\n"
      + "3. 医療・教育施設（病院、学校、図書館）\n"
      + "4. 商業・娯楽施設（商業施設、レストラン、公園）\n"
      + "5. 治安・環境（住宅地の特徴、騒音レベル）\n"
      + "6. 総合住みやすさ評価\n"
      + "\n"
      + "一般的な住民の視点で、客観的で分かりやすい分析をお願いします。\n"
  const AreaPersonalizedMiddle: string :=
      "」をあなたの好みに合わせて詳細分析します。\n"
      + "\n"
  const AreaPersonalizedTail: string :=
      "\n"
      + "\n"
      + "【あなた向けカスタム分析】\n"
      + "上記の好み設定を最重視して、以下の視点で分析してください：\n"
      + "\n"
      + "1. あなたが重視する交通手段でのアクセス性\n"
      + "2. あなたが必要とする施設の充実度\n"
      + "3. あなたのライフスタイルに合った環境\n"
      + "4. あなたの予算感覚に見合った価値\n"
      + "5. 「あなたにとっての」住みやすさ総合評価\n"
      + "\n"
      + "分析は「あなたの○○重視の好みにぴったり」「あなたのライフスタイルには」といった個人化された表現で行ってください。\n"
  const PreferenceHeader: string :=
      "\n"
      + "【あなた専用の個人化分析】\n"
      + "あなたの重視する要素：\n"

  /** The marker that flags a category weighted 4 or 5. */
  const MostImportant: string := "(最重要)"

  const FacilitiesListLabel: string := "特に重視する施設"
  const TransportListLabel: string := "よく利用する交通手段"
  const ListSeparator: string := ", "

  // ---- Pieces ----

  /** `str(w)` for a weight: a single decimal digit. */
  function PriorityText(w: Priority): (s: string)
    ensures |s| == 1 && '1' <= s[0] <= '5'
    ensures s[0] as int - '0' as int == w
  {
    [('0' as int + w) as char]
  }

  /** The label of a category in the camera prompt. */
  function CameraLabel(c: Category): string {
    match c
    case Transportation => "交通利便性重要度"
    case Facilities => "周辺施設重要度"
    case Lifestyle => "ライフスタイル重要度"
    case Budget => "予算重要度"
  }

  /** One `n/5` line of the camera prompt; the facilities line carries two
      trailing spaces in the template. */
  function CameraWeightLine(c: Category, w: Priority): string {
    "- " + CameraLabel(c) + ": " + PriorityText(w) + "/5" + (if c == Facilities then "  " else "") + "\n"
  }

  /** The label of a category in the personalized area prompt. */
  function AreaLabel(c: Category): string {
    match c
    case Transportation => "交通利便性"
    case Facilities => "周辺施設"
    case Lifestyle => "ライフスタイル"
    case Budget => "予算"
  }

  function Flag(w: Priority): string {
    if w >= 4 then MostImportant else ""
  }

  /** One weight line of the personalized area prompt. */
  function CategoryLine(c: Category, w: Priority): string {
    "- " + AreaLabel(c) + ": " + PriorityText(w) + "/5 " + Flag(w) + "\n"
  }

  function CategoryBlock(p: UserPreferences): string {
    CategoryLine(Transportation, p.transportationPriority)
    + CategoryLine(Facilities, p.facilitiesPriority)
    + CategoryLine(Lifestyle, p.lifestylePriority)
    + CategoryLine(Budget, p.budgetPriority)
  }

  /** A free-text list line: the items joined with `", "`. */
  function ListLine(caption: string, xs: seq<string>): string {
    "- " + caption + ": " + Join(xs, ListSeparator) + "\n"
  }

  // ---- Camera prompt ----

  function CameraPreferenceBlock(p: UserPreferences): string {
    CameraPreferenceHead
    + CameraWeightLine(Transportation, p.transportationPriority)
    + CameraWeightLine(Facilities, p.facilitiesPriority)
    + CameraWeightLine(Lifestyle, p.lifestylePriority)
    + CameraWeightLine(Budget, p.budgetPriority)
    + CameraPreferenceTail
  }

  lemma CameraBlockEnds(p: UserPreferences)
    ensures EndsWith(CameraPreferenceBlock(p), CameraPreferenceTail)
  {
    var front := CameraPreferenceHead
      + CameraWeightLine(Transportation, p.transportationPriority)
      + CameraWeightLine(Facilities, p.facilitiesPriority)
      + CameraWeightLine(Lifestyle, p.lifestylePriority)
      + CameraWeightLine(Budget, p.budgetPriority);
    EndsWithAppend(front, CameraPreferenceTail);
  }

  /** The camera prompt: the fixed checklist, then either the four weights or
      the generic sentence. */
  function CameraPrompt(preferences: Option<UserPreferences>): (r: string)
    ensures StartsWith(r, CameraBasePrompt)
    ensures preferences.None? ==> r == CameraBasePrompt + CameraGenericSentence
    ensures preferences.Some? ==> EndsWith(r, CameraPreferenceTail)
  {
    if preferences.Some? then
      var block := CameraPreferenceBlock(preferences.value);
      StartsWithAppend(CameraBasePrompt, block);
      CameraBlockEnds(preferences.value);
      EndsWithTransitive(CameraBasePrompt, block, CameraPreferenceTail);
      CameraBasePrompt + block
    else
      StartsWithAppend(CameraBasePrompt, CameraGenericSentence);
      CameraBasePrompt + CameraGenericSentence
  }

  // ---- Area prompts ----

  /** The basic area prompt: the address verbatim between two fixed texts. */
  function AreaBasicPrompt(address: string): (r: string)
    ensures |r| == |AddressHead| + |address| + |AreaBasicTail|
    ensures StartsWith(r, AddressHead)
    ensures r[|AddressHead|..|AddressHead| + |address|] == address
    ensures EndsWith(r, AreaBasicTail)
  {
    AddressHead + address + AreaBasicTail
  }

  /** The preference block of the personalized area prompt: a header, the four
      weight lines, then each non-empty list on a line of its own. */
  function PreferenceText(p: UserPreferences): (r: string)
    ensures StartsWith(r, PreferenceHeader + CategoryBlock(p))
    ensures p.specificFacilities != [] ==> Contains(r, ListLine(FacilitiesListLabel, p.specificFacilities))
    ensures p.transportationTypes != [] ==> EndsWith(r, ListLine(TransportListLabel, p.transportationTypes))
    ensures |r| == |PreferenceHeader + CategoryBlock(p)|
                   + (if p.specificFacilities == [] then 0 else |ListLine(FacilitiesListLabel, p.specificFacilities)|)
                   + (if p.transportationTypes == [] then 0 else |ListLine(TransportListLabel, p.transportationTypes)|)
  {
    var weights := PreferenceHeader + CategoryBlock(p);
    var facilities := ListLine(FacilitiesListLabel, p.specificFacilities);
    var transport := ListLine(TransportListLabel, p.transportationTypes);
    var text := if p.specificFacilities != [] then weights + facilities else weights;
    var text' := if p.transportationTypes != [] then text + transport else text;
    StartsWithAppend(weights, facilities);
    StartsWithAppend(weights, "");
    assert weights + "" == weights;
    StartsWithExtend(text, weights, transport);
    ContainsMiddle(weights, facilities, "");
    ContainsMiddle(weights, facilities, transport);
    assert weights + facilities + "" == weights + facilities;
    EndsWithAppend(text, transport);
    text'
  }

  /** The personalized area prompt: the address verbatim, then the preference
      block, then the fixed custom checklist. */
  function AreaPersonalizedPrompt(address: string, p: UserPreferences): (r: string)
    ensures StartsWith(r, AddressHead + address + AreaPersonalizedMiddle)
    ensures EndsWith(r, PreferenceText(p) + AreaPersonalizedTail)
    ensures |r| == |AddressHead + address + AreaPersonalizedMiddle| + |PreferenceText(p) + AreaPersonalizedTail|
  {
    var front := AddressHead + address + AreaPersonalizedMiddle;
    var back := PreferenceText(p) + AreaPersonalizedTail;
    StartsWithAppend(front, back);
    EndsWithAppend(front, back);
    front + back
  }

  // ---- Properties ----

  /** A weight line carries the marker exactly when its weight is 4 or more,
      and a line weighted 3 or less holds no part of the marker at all. */
  lemma CategoryLineFlag(c: Category, w: Priority)
    ensures EndsWith(CategoryLine(c, w), MostImportant + "\n") <==> w >= 4
    ensures w <= 3 ==> !Contains(CategoryLine(c, w), MostImportant)
  {
    var front := "- " + AreaLabel(c) + ": " + PriorityText(w) + "/5 ";
    var line := CategoryLine(c, w);
    assert '(' !in AreaLabel(c);
    assert '(' !in front;
    if w >= 4 {
      assert line == front + (MostImportant + "\n");
      EndsWithAppend(front, MostImportant + "\n");
    } else {
      assert line == front + "\n";
      assert line[|line| - 2] == ' ';
      assert (MostImportant + "\n")[4] == ')';
      assert '(' !in line;
      if Contains(line, MostImportant) {
        ContainsFirstChar(line, MostImportant);
        assert false;
      }
    }
  }

  /** The preference block is a substring of the personalized prompt. */
  lemma PromptHoldsPreferenceText(address: string, p: UserPreferences)
    ensures Contains(AreaPersonalizedPrompt(address, p), PreferenceText(p))
  {
    ContainsSelf(PreferenceText(p));
    ContainsInLeft(PreferenceText(p), AreaPersonalizedTail, PreferenceText(p));
    ContainsInRight(AddressHead + address + AreaPersonalizedMiddle, PreferenceText(p) + AreaPersonalizedTail, PreferenceText(p));
  }

  /** Each weight line is a substring of the four-line block. */
  lemma BlockHoldsCategoryLine(p: UserPreferences, c: Category)
    ensures Contains(CategoryBlock(p), CategoryLine(c, Weight(p, c)))
  {
    var l1 := CategoryLine(Transportation, p.transportationPriority);
    var l2 := CategoryLine(Facilities, p.facilitiesPriority);
    var l3 := CategoryLine(Lifestyle, p.lifestylePriority);
    var l4 := CategoryLine(Budget, p.budgetPriority);
    var line := CategoryLine(c, Weight(p, c));
    ContainsSelf(line);
    match c {
      case Transportation =>
        ContainsInLeft(l1, l2, line);
        ContainsInLeft(l1 + l2, l3, line);
        ContainsInLeft(l1 + l2 + l3, l4, line);
      case Facilities =>
        ContainsInRight(l1, l2, line);
        ContainsInLeft(l1 + l2, l3, line);
        ContainsInLeft(l1 + l2 + l3, l4, line);
      case Lifestyle =>
        ContainsInRight(l1 + l2, l3, line);
        ContainsInLeft(l1 + l2 + l3, l4, line);
      case Budget =>
        ContainsInRight(l1 + l2 + l3, l4, line);
    }
  }

  /** Each of the four categories has its weight line, flag included, in the
      personalized area prompt. */
  lemma PromptHoldsCategoryLine(address: string, p: UserPreferences, c: Category)
    ensures Contains(AreaPersonalizedPrompt(address, p), CategoryLine(c, Weight(p, c)))
  {
    var line := CategoryLine(c, Weight(p, c));
    var block := CategoryBlock(p);
    BlockHoldsCategoryLine(p, c);
    ContainsSelf(block);
    ContainsInRight(PreferenceHeader, block, block);
    StartsWithContains(PreferenceText(p), PreferenceHeader + block);
    ContainsTransitive(PreferenceText(p), PreferenceHeader + block, block);
    ContainsTransitive(PreferenceText(p), block, line);
    PromptHoldsPreferenceText(address, p);
    ContainsTransitive(AreaPersonalizedPrompt(address, p), PreferenceText(p), line);
  }

  /** Every specific facility and every transport type the user listed appears
      verbatim in the personalized area prompt. */
  lemma PromptListsEveryItem(address: string, p: UserPreferences)
    ensures forall i :: 0 <= i < |p.specificFacilities| ==>
              Contains(AreaPersonalizedPrompt(address, p), p.specificFacilities[i])
    ensures forall i :: 0 <= i < |p.transportationTypes| ==>
              Contains(AreaPersonalizedPrompt(address, p), p.transportationTypes[i])
  {
    var prompt := AreaPersonalizedPrompt(address, p);
    PromptHoldsPreferenceText(address, p);
    forall i | 0 <= i < |p.specificFacilities|
      ensures Contains(prompt, p.specificFacilities[i])
    {
      var line := ListLine(FacilitiesListLabel, p.specificFacilities);
      var joined := Join(p.specificFacilities, ListSeparator);
      ContainsTransitive(prompt, PreferenceText(p), line);
      ContainsMiddle("- " + FacilitiesListLabel + ": ", joined, "\n");
      ContainsTransitive(prompt, line, joined);
      JoinContainsEach(p.specificFacilities, ListSeparator, i);
      ContainsTransitive(prompt, joined, p.specificFacilities[i]);
    }
    forall i | 0 <= i < |p.transportationTypes|
      ensures Contains(prompt, p.transportationTypes[i])
    {
      var line := ListLine(TransportListLabel, p.transportationTypes);
      var joined := Join(p.transportationTypes, ListSeparator);
      EndsWithContains(PreferenceText(p), line);
      ContainsTransitive(prompt, PreferenceText(p), line);
      ContainsMiddle("- " + TransportListLabel + ": ", joined, "\n");
      ContainsTransitive(prompt, line, joined);
      JoinContainsEach(p.transportationTypes, ListSeparator, i);
      ContainsTransitive(prompt, joined, p.transportationTypes[i]);
    }
  }

  /** With both lists empty nothing follows the four weight lines. */
  lemma PreferenceTextWithoutLists(p: UserPreferences)
    requires p.specificFacilities == [] && p.transportationTypes == []
    ensures PreferenceText(p) == PreferenceHeader + CategoryBlock(p)
  {
    var r := PreferenceText(p);
    assert r == r[..|PreferenceHeader + CategoryBlock(p)|];
  }

  /** The inverse of the basic area template: the address between its head and tail. */
  function ExtractAddress(prompt: string): (a: Option<string>)
  {
    if |prompt| >= |AddressHead| + |AreaBasicTail| && StartsWith(prompt, AddressHead) && EndsWith(prompt, AreaBasicTail)
    then Some(prompt[|AddressHead|..|prompt| - |AreaBasicTail|])
    else None
  }

  /** The address is embedded verbatim: it can be read back from the prompt. */
  lemma AreaBasicPromptRoundTrip(address: string)
    ensures ExtractAddress(AreaBasicPrompt(address)) == Some(address)
  {
    var r := AreaBasicPrompt(address);
    assert |r| - |AreaBasicTail| == |AddressHead| + |address|;
  }

  /** Indexing past a prefix lands in the second part. */
  lemma CharAfterPrefix(a: string, x: string, i: int)
    requires 0 <= i < |x|
    ensures (a + x)[|a| + i] == x[i]
  {
  }

  /** The character right after the closing bracket `」` of the two area templates. */
  lemma AreaTemplatesSecondChar()
    ensures AreaBasicTail[1] == 'の'
    ensures AreaPersonalizedMiddle[1] == 'を'
  {
  }

  /** The basic and the personalized area prompt never coincide, whatever the
      address and preferences: the template is chosen as a whole. */
  lemma AreaPromptsDiffer(address: string, p: UserPreferences)
    ensures AreaBasicPrompt(address) != AreaPersonalizedPrompt(address, p)
  {
    var opening := AddressHead + address;
    var front := opening + AreaPersonalizedMiddle;
    var k := |opening|;
    AreaTemplatesSecondChar();
    CharAfterPrefix(opening, AreaBasicTail, 1);
    CharAfterPrefix(opening, AreaPersonalizedMiddle, 1);
    assert AreaPersonalizedPrompt(address, p)[..|front|] == front;
    assert AreaBasicPrompt(address)[k + 1] == 'の';
    assert AreaPersonalizedPrompt(address, p)[k + 1] == front[k + 1] == 'を';
  }

  /** The camera prompt carries the `n/5` line of each of the four weights. */
  lemma CameraPromptHoldsWeightLine(p: UserPreferences, c: Category)
    ensures Contains(CameraPrompt(Some(p)), CameraWeightLine(c, Weight(p, c)))
  {
    var l1 := CameraWeightLine(Transportation, p.transportationPriority);
    var l2 := CameraWeightLine(Facilities, p.facilitiesPriority);
    var l3 := CameraWeightLine(Lifestyle, p.lifestylePriority);
    var l4 := CameraWeightLine(Budget, p.budgetPriority);
    var h := CameraPreferenceHead;
    var line := CameraWeightLine(c, Weight(p, c));
    ContainsSelf(line);
    match c {
      case Transportation =>
        ContainsInRight(h, l1, line);
        ContainsInLeft(h + l1, l2, line);
        ContainsInLeft(h + l1 + l2, l3, line);
        ContainsInLeft(h + l1 + l2 + l3, l4, line);
      case Facilities =>
        ContainsInRight(h + l1, l2, line);
        ContainsInLeft(h + l1 + l2, l3, line);
        ContainsInLeft(h + l1 + l2 + l3, l4, line);
      case Lifestyle =>
        ContainsInRight(h + l1 + l2, l3, line);
        ContainsInLeft(h + l1 + l2 + l3, l4, line);
      case Budget =>
        ContainsInRight(h + l1 + l2 + l3, l4, line);
    }
    ContainsInLeft(h + l1 + l2 + l3 + l4, CameraPreferenceTail, line);
    ContainsInRight(CameraBasePrompt, CameraPreferenceBlock(p), line);
  }

  /** The personalized camera prompt never equals the generic one. */
  lemma CameraPromptsDiffer(p: UserPreferences)
    ensures CameraPrompt(Some(p)) != CameraPrompt(None)
  {
    var k := |CameraBasePrompt|;
    var personal := CameraPrompt(Some(p));
    var generic := CameraPrompt(None);
    assert personal[k + 1] == CameraPreferenceHead[1] == '【';
    assert generic[k + 1] == CameraGenericSentence[1] == '一';
  }

  /** Where the digit sits in a camera weight line; the line's length does not
      depend on the weight. */
  lemma CameraLineShape(c: Category, w: Priority)
    ensures |CameraWeightLine(c, w)| == |"- " + CameraLabel(c) + ": "| + 3 + (if c == Facilities then 2 else 0) + 1
    ensures CameraWeightLine(c, w)[|"- " + CameraLabel(c) + ": "|] == PriorityText(w)[0]
  {
  }

  /** Two concatenations that are equal and split at the same point agree part by part. */
  lemma SplitEqual(a: string, b: string, c: string, d: string)
    requires a + b == c + d && |a| == |c|
    ensures a == c && b == d
  {
    assert a == (a + b)[..|a|] && c == (c + d)[..|c|];
    assert b == (a + b)[|a|..] && d == (c + d)[|c|..];
  }

  /** Two prompts of the same frame whose four lines have matching lengths
      agree line by line. */
  lemma SameFrameSameLines(base: string, head: string, tail: string,
                           l1: string, l2: string, l3: string, l4: string,
                           m1: string, m2: string, m3: string, m4: string)
    requires |l1| == |m1| && |l2| == |m2| && |l3| == |m3| && |l4| == |m4|
    requires base + (head + l1 + l2 + l3 + l4 + tail) == base + (head + m1 + m2 + m3 + m4 + tail)
    ensures l1 == m1 && l2 == m2 && l3 == m3 && l4 == m4
  {
    SplitEqual(base, head + l1 + l2 + l3 + l4 + tail, base, head + m1 + m2 + m3 + m4 + tail);
    SplitEqual(head + l1 + l2 + l3 + l4, tail, head + m1 + m2 + m3 + m4, tail);
    SplitEqual(head + l1 + l2 + l3, l4, head + m1 + m2 + m3, m4);
    SplitEqual(head + l1 + l2, l3, head + m1 + m2, m3);
    SplitEqual(head + l1, l2, head + m1, m2);
    SplitEqual(head, l1, head, m1);
  }

  /** Equal camera weight lines of one category carry equal weights. */
  lemma CameraLineDeterminesWeight(c: Category, v: Priority, w: Priority)
    requires CameraWeightLine(c, v) == CameraWeightLine(c, w)
    ensures v == w
  {
    CameraLineShape(c, v);
    CameraLineShape(c, w);
  }

  /** The personalized camera prompt tells the four weights apart and nothing
      else: two payloads give the same prompt exactly when their weights agree
      (the free-text lists do not enter the camera prompt). */
  lemma CameraPromptDeterminedByWeights(p: UserPreferences, q: UserPreferences)
    ensures CameraPrompt(Some(p)) == CameraPrompt(Some(q)) <==>
              forall c :: Weight(p, c) == Weight(q, c)
  {
    if CameraPrompt(Some(p)) == CameraPrompt(Some(q)) {
      CameraLineShape(Transportation, p.transportationPriority);
      CameraLineShape(Transportation, q.transportationPriority);
      CameraLineShape(Facilities, p.facilitiesPriority);
      CameraLineShape(Facilities, q.facilitiesPriority);
      CameraLineShape(Lifestyle, p.lifestylePriority);
      CameraLineShape(Lifestyle, q.lifestylePriority);
      CameraLineShape(Budget, p.budgetPriority);
      CameraLineShape(Budget, q.budgetPriority);
      SameFrameSameLines(CameraBasePrompt, CameraPreferenceHead, CameraPreferenceTail,
        CameraWeightLine(Transportation, p.transportationPriority),
        CameraWeightLine(Facilities, p.facilitiesPriority),
        CameraWeightLine(Lifestyle, p.lifestylePriority),
        CameraWeightLine(Budget, p.budgetPriority),
        CameraWeightLine(Transportation, q.transportationPriority),
        CameraWeightLine(Facilities, q.facilitiesPriority),
        CameraWeightLine(Lifestyle, q.lifestylePriority),
        CameraWeightLine(Budget, q.budgetPriority));
      CameraLineDeterminesWeight(Transportation, p.transportationPriority, q.transportationPriority);
      CameraLineDeterminesWeight(Facilities, p.facilitiesPriority, q.facilitiesPriority);
      CameraLineDeterminesWeight(Lifestyle, p.lifestylePriority, q.lifestylePriority);
      CameraLineDeterminesWeight(Budget, p.budgetPriority, q.budgetPriority);
      forall c: Category ensures Weight(p, c) == Weight(q, c) {
      }
    }
    if forall c :: Weight(p, c) == Weight(q, c) {
      assert Weight(p, Transportation) == Weight(q, Transportation);
      assert Weight(p, Facilities) == Weight(q, Facilities);
      assert Weight(p, Lifestyle) == Weight(q, Lifestyle);
      assert Weight(p, Budget) == Weight(q, Budget);
    }
  }
}
