/** The rule cascade of `GetM1` (internal/handlers/m1.go:52-1397) as data: one rule per `if`,
    in declaration order, `RuleK` is the `if` at position K, marked with the lines it comes from.
    Card names, thresholds, titles and name lists are as written there. */
module M1Table {
  import opened Rules

  /** The whole cascade, in declaration order (written in runs of ten rules). */
  const Table: seq<Rule> :=
    [Rule0, Rule1, Rule2, Rule3, Rule4, Rule5, Rule6, Rule7, Rule8, Rule9] +
    [Rule10, Rule11, Rule12, Rule13, Rule14, Rule15, Rule16, Rule17, Rule18, Rule19] +
    [Rule20, Rule21, Rule22, Rule23, Rule24, Rule25, Rule26, Rule27, Rule28, Rule29] +
    [Rule30, Rule31, Rule32, Rule33, Rule34, Rule35, Rule36, Rule37, Rule38, Rule39] +
    [Rule40, Rule41, Rule42, Rule43, Rule44, Rule45, Rule46, Rule47, Rule48, Rule49] +
    [Rule50, Rule51, Rule52, Rule53, Rule54, Rule55, Rule56, Rule57, Rule58, Rule59] +
    [Rule60, Rule61, Rule62, Rule63, Rule64, Rule65, Rule66, Rule67, Rule68, Rule69] +
    [Rule70, Rule71, Rule72, Rule73, Rule74, Rule75, Rule76, Rule77, Rule78, Rule79] +
    [Rule80, Rule81, Rule82, Rule83, Rule84, Rule85, Rule86, Rule87, Rule88, Rule89] +
    [Rule90, Rule91, Rule92, Rule93, Rule94, Rule95, Rule96, Rule97, Rule98, Rule99] +
    [Rule100]

  // internal/handlers/m1.go:52-65
  const Rule0 := Rule(
    AtLeast("メガルカリオex", 2),
    "メガルカリオex",
    ["メガルカリオex", "ハリテヤマ", "タケルライコ", "ソルロック", "ルナトーン"])

  // internal/handlers/m1.go:67-77
  const Rule1 := Rule(
    AtLeast("メガフシギバナex", 2),
    "メガフシギバナex",
    ["メガフシギバナex", "活力の森"])

  // internal/handlers/m1.go:79-88
  const Rule2 := Rule(
    AtLeast("メガアブソルex", 2),
    "メガアブソルex",
    ["メガアブソルex"])

  // internal/handlers/m1.go:90-100
  const Rule3 := Rule(
    AtLeast("メガガルーラex", 3),
    "メガガルーラex",
    ["メガガルーラex", "フォレトスex"])

  // internal/handlers/m1.go:102-119
  const Rule4 := Rule(
    And(AtLeast("タケルライコex", 2), Or(AtLeast("オーガポン みどりのめんex", 2), AtLeast("スナノケガワex", 2))),
    "タケルライコex",
    ["タケルライコex", "オーガポン みどりのめんex", "ヨルノズク", "スナノケガワex", "タケルライコ", "コライドン", "チヲハウハネ", "テツノイサハex", "メガガルーラex"])

  // internal/handlers/m1.go:121-135
  const Rule5 := Rule(
    AtLeast("リザードンex", 2),
    "リザードンex",
    ["リザードンex", "ピジョットex", "ヨルノズク", "ヨノワール", "テラパゴスex", "イーユイ"])

  // internal/handlers/m1.go:137-149
  const Rule6 := Rule(
    And(And(AtLeast("ドラパルトex", 2), AtLeast("ドロンチ", 2)), AtLeast("ドラメシヤ", 2)),
    "ドラパルトex",
    ["ドラパルトex", "ヨノワール", "ピジョットex", "ロケット団のクロバットex"])

  // internal/handlers/m1.go:151-162
  const Rule7 := Rule(
    AtLeast("マリィのオーロンゲex", 2),
    "マリィのオーロンゲex",
    ["マリィのオーロンゲex", "ユキメノコ", "マシマシラ"])

  // internal/handlers/m1.go:164-176
  const Rule8 := Rule(
    AtLeast("サーナイトex", 2),
    "サーナイトex",
    ["サーナイトex", "メガサーナイトex", "メガディアンシーex", "ミステリーガーデン"])

  // internal/handlers/m1.go:178-193
  const Rule9 := Rule(
    AtLeast("ブリジュラスex", 2),
    "ブリジュラスex",
    ["ブリジュラスex", "メガクチートex", "ゲノセクトex", "ホップのバイウールー", "ノココッチ", "モモワロウ", "アラブルタケ"])

  // internal/handlers/m1.go:195-204
  const Rule10 := Rule(
    AtLeast("ダイオウドウex", 2),
    "ダイオウドウex",
    ["ダイオウドウex"])

  // internal/handlers/m1.go:206-219
  const Rule11 := Rule(
    AtLeast("ソウブレイズex", 2),
    "ソウブレイズex",
    ["ソウブレイズex", "ノココッチ", "ブロロローム", "ソルロック", "ルナトーン"])

  // internal/handlers/m1.go:221-235
  const Rule12 := Rule(
    AtLeast("サーフゴーex", 2),
    "サーフゴーex",
    ["サーフゴーex", "ゲノセクトex", "ノココッチ", "ハッサム", "ソルロック", "ルナトーン"])

  // internal/handlers/m1.go:237-246
  const Rule13 := Rule(
    AtLeast("バシャーモex", 2),
    "バシャーモex",
    ["バシャーモex"])

  // internal/handlers/m1.go:248-257
  const Rule14 := Rule(
    AtLeast("ゲッコウガex", 2),
    "ゲッコウガex",
    ["ゲッコウガex"])

  // internal/handlers/m1.go:259-268
  const Rule15 := Rule(
    AtLeast("ダイゴのメタグロスex", 2),
    "ダイゴのメタグロスex",
    ["ダイゴのメタグロスex"])

  // internal/handlers/m1.go:270-280
  const Rule16 := Rule(
    AtLeast("ハピナスex", 2),
    "ハピナスex",
    ["ハピナスex", "マシマシラ"])

  // internal/handlers/m1.go:282-291
  const Rule17 := Rule(
    AtLeast("ガオガエンex", 2),
    "ガオガエンex",
    ["ガオガエンex"])

  // internal/handlers/m1.go:293-302
  const Rule18 := Rule(
    AtLeast("サザンドラex", 2),
    "サザンドラex",
    ["サザンドラex"])

  // internal/handlers/m1.go:304-317
  const Rule19 := Rule(
    AtLeast("ナンジャモのハラバリーex", 2),
    "ナンジャモのハラバリーex",
    ["ナンジャモのハラバリーex", "ナンジャモのタイカイデン", "ナンジャモのビリリダマ", "ミライドンex", "タケルライコex"])

  // internal/handlers/m1.go:319-329
  const Rule20 := Rule(
    And(AtLeast("ヒビキのバクフーン", 2), Exactly("ヒビキの冒険", 4)),
    "ヒビキのバクフーン",
    ["ヒビキのバクフーン", "ヒビキの冒険"])

  // internal/handlers/m1.go:331-340
  const Rule21 := Rule(
    AtLeast("カミツオロチex", 2),
    "カミツオロチex",
    ["カミツオロチex"])

  // internal/handlers/m1.go:342-353
  const Rule22 := Rule(
    AtLeast("スコヴィランex", 3),
    "スコヴィランex",
    ["スコヴィランex", "オーガポン みどりのめんex", "ユキメノコ"])

  // internal/handlers/m1.go:355-370
  const Rule23 := Rule(
    And(AtLeast("ブースターex", 2), Not(Or(Or(Or(Or(Or(Or(AtLeast("シャワーズex", 1), AtLeast("サンダースex", 1)), AtLeast("エーフィex", 1)), AtLeast("ブラッキーex", 1)), AtLeast("リーフィアex", 1)), AtLeast("グレイシアex", 1)), AtLeast("ニンフィアex", 1)))),
    "ブースターex",
    ["ブースターex", "イーブイex", "オーガポン いどのめんex", "テラパゴスex", "リーリエのピッピex"])

  // internal/handlers/m1.go:372-391
  const Rule24 := Rule(
    And(And(Or(AtLeast("イーブイex", 1), AtLeast("イーブイ", 1)), AtLeast("ブースターex", 1)), Or(Or(Or(Or(Or(Or(AtLeast("シャワーズex", 1), AtLeast("サンダースex", 1)), AtLeast("エーフィex", 1)), AtLeast("ブラッキーex", 1)), AtLeast("リーフィアex", 1)), AtLeast("グレイシアex", 1)), AtLeast("ニンフィアex", 1))),
    "ブイズバレット",
    ["イーブイex", "ブースターex", "シャワーズex", "サンダースex", "エーフィex", "ブラッキーex", "リーフィアex", "グレイシアex", "ニンフィアex"])

  // internal/handlers/m1.go:393-406
  const Rule25 := Rule(
    AtLeast("シロナのガブリアスex", 2),
    "シロナのガブリアスex",
    ["シロナのガブリアスex", "シロナのロズレイド", "シロナのミカルゲ", "ユキメノコ", "マシマシラ"])

  // internal/handlers/m1.go:408-417
  const Rule26 := Rule(
    AtLeast("オーダイル", 2),
    "オーダイル",
    ["オーダイル"])

  // internal/handlers/m1.go:419-428
  const Rule27 := Rule(
    AtLeast("クエスパトラex", 2),
    "クエスパトラex",
    ["クエスパトラex"])

  // internal/handlers/m1.go:430-439
  const Rule28 := Rule(
    AtLeast("イイネイヌ", 3),
    "イイネイヌ",
    ["イイネイヌ"])

  // internal/handlers/m1.go:441-451
  const Rule29 := Rule(
    And(AtLeast("ロケット団のミュウツーex", 2), AtLeast("ロケット団のワナイダー", 3)),
    "ロケット団のミュウツーex",
    ["ロケット団のミュウツーex", "ロケット団のワナイダー"])

  // internal/handlers/m1.go:453-462
  const Rule30 := Rule(
    AtLeast("ロケット団のクロバットex", 2),
    "ロケット団のクロバットex",
    ["ロケット団のクロバットex"])

  // internal/handlers/m1.go:464-473
  const Rule31 := Rule(
    AtLeast("ロケット団のバンギラス", 2),
    "ロケット団のバンギラス",
    ["ロケット団のバンギラス"])

  // internal/handlers/m1.go:475-484
  const Rule32 := Rule(
    AtLeast("ロケット団のデンリュウ", 2),
    "ロケット団のデンリュウ",
    ["ロケット団のデンリュウ"])

  // internal/handlers/m1.go:486-495
  const Rule33 := Rule(
    AtLeast("ロケット団のペルシアンex", 2),
    "ロケット団のペルシアンex",
    ["ロケット団のペルシアンex"])

  // internal/handlers/m1.go:497-506
  const Rule34 := Rule(
    AtLeast("ロケット団のニドキングex", 2),
    "ロケット団のニドキングex",
    ["ロケット団のニドキングex"])

  // internal/handlers/m1.go:508-518
  const Rule35 := Rule(
    AtLeast("ロケット団のニドクイン", 2),
    "ロケット団のニドクイン",
    ["ロケット団のニドクイン", "ニドキング"])

  // internal/handlers/m1.go:520-529
  const Rule36 := Rule(
    AtLeast("ロケット団のアーボック", 2),
    "ロケット団のアーボック",
    ["ロケット団のアーボック"])

  // internal/handlers/m1.go:531-540
  const Rule37 := Rule(
    AtLeast("ロケット団のファイヤーex", 2),
    "ロケット団のファイヤーex",
    ["ロケット団のファイヤーex"])

  // internal/handlers/m1.go:542-551
  const Rule38 := Rule(
    AtLeast("ロケット団のポリゴンZ", 3),
    "ロケット団のポリゴンZ",
    ["ロケット団のポリゴンZ"])

  // internal/handlers/m1.go:553-563
  const Rule39 := Rule(
    And(AtLeast("パオジアンex", 2), AtLeast("セグレイブ", 2)),
    "パオジアンex",
    ["パオジアンex", "セグレイブ"])

  // internal/handlers/m1.go:565-576
  const Rule40 := Rule(
    AtLeast("テラパゴスex", 3),
    "テラパゴスex",
    ["テラパゴスex", "ヨルノズク", "バッフロン"])

  // internal/handlers/m1.go:578-589
  const Rule41 := Rule(
    And(And(AtLeast("ヨノワール", 3), AtLeast("サマヨール", 3)), AtLeast("ヨマワル", 3)),
    "カースドボム",
    ["ヨノワール", "サマヨール", "ヨマワル"])

  // internal/handlers/m1.go:591-604
  const Rule42 := Rule(
    Or(And(And(AtLeast("トドロクツキex", 2), AtMost("トドロクツキ", 2)), And(Exactly("モモワロウ", 0), Exactly("アラブルタケ", 0))), And(AtLeast("トドロクツキex", 3), Exactly("トドロクツキ", 0))),
    "トドロクツキex",
    ["トドロクツキex", "トドロクツキ", "モモワロウ", "アラブルタケ", "危険な密林"])

  // internal/handlers/m1.go:606-619
  const Rule43 := Rule(
    And(And(And(Exactly("トドロクツキ", 4), Or(AtLeast("イダイナキバ", 1), AtLeast("コライドン", 1))), Exactly("オーリム博士の気迫", 4)), AtLeast("探検家の先導", 3)),
    "古代バレット",
    ["トドロクツキ", "ハバタクカミ", "イダイナキバ", "コライドン", "トドロクツキex"])

  // internal/handlers/m1.go:621-634
  const Rule44 := Rule(
    And(And(And(And(Or(AtLeast("トドロクツキex", 2), AtLeast("トドロクツキ", 2)), AtLeast("モモワロウ", 2)), AtLeast("アラブルタケ", 2)), Exactly("オーリム博士の気迫", 4)), AtLeast("危険な密林", 3)),
    "毒トドロクツキ",
    ["トドロクツキex", "トドロクツキ", "モモワロウ", "アラブルタケ", "危険な密林"])

  // internal/handlers/m1.go:636-648
  const Rule45 := Rule(
    And(AtLeast("Nのゾロアークex", 3), Or(Or(AtLeast("Nのヒヒダルマ", 2), AtLeast("Nのレシラム", 1)), AtLeast("Nのシンボラー", 1))),
    "Nのゾロアークex",
    ["Nのゾロアークex", "Nのヒヒダルマ", "Nのレシラム", "Nのシンボラー"])

  // internal/handlers/m1.go:650-661
  const Rule46 := Rule(
    And(AtLeast("ヒビキのホウオウex", 2), Exactly("グレンアルマ", 0)),
    "ヒビキのホウオウex",
    ["ヒビキのホウオウex", "ヒビキのマグカルゴ", "ヒビキのカイロス"])

  // internal/handlers/m1.go:663-677
  const Rule47 := Rule(
    And(AtLeast("ヒビキのホウオウex", 2), AtLeast("グレンアルマ", 2)),
    "ひおくりバレット",
    ["ヒビキのホウオウex", "グレンアルマ", "オーガポン いどのめんex", "テツノカイナex", "リーリエのピッピex", "レジギガス"])

  // internal/handlers/m1.go:679-689
  const Rule48 := Rule(
    AtLeast("ブルンゲルex", 2),
    "ブルンゲルex",
    ["ブルンゲルex", "ヨノワール"])

  // internal/handlers/m1.go:691-707
  const Rule49 := Rule(
    AtLeast("マンムーex", 2),
    "マンムーex",
    ["マンムーex", "ピジョットex", "キョジオーン", "バシャーモex", "ガブリアスex", "レントラーex", "レントラー", "ヨノワール"])

  // internal/handlers/m1.go:709-721
  const Rule50 := Rule(
    AtLeast("ウガツホムラex", 2),
    "ウガツホムラex",
    ["ウガツホムラex", "トドロクツキex", "モモワロウ", "アラブルタケ"])

  // internal/handlers/m1.go:723-735
  const Rule51 := Rule(
    Or(AtLeast("ヤバソチャex", 1), AtLeast("ヤバソチャ", 2)),
    "ヤバソチャex",
    ["ヤバソチャex", "ヤバソチャ", "オーガポン みどりのめんex", "テツノイサハex"])

  // internal/handlers/m1.go:737-747
  const Rule52 := Rule(
    AtLeast("デスカーンex", 2),
    "デスカーンex",
    ["デスカーンex", "ノココッチ"])

  // internal/handlers/m1.go:749-758
  const Rule53 := Rule(
    AtLeast("フーディンex", 2),
    "フーディンex",
    ["フーディンex"])

  // internal/handlers/m1.go:760-773
  const Rule54 := Rule(
    AtLeast("フーディン", 3),
    "フーディン",
    ["フーディン", "フーディンex", "ノココッチ", "デカヌチャン", "ナカヌチャン"])

  // internal/handlers/m1.go:775-786
  const Rule55 := Rule(
    AtLeast("ペンドラー", 2),
    "ペンドラー",
    ["ペンドラー", "モモワロウ", "アラブルタケ"])

  // internal/handlers/m1.go:788-797
  const Rule56 := Rule(
    AtLeast("レントラーex", 3),
    "レントラーex",
    ["レントラーex"])

  // internal/handlers/m1.go:799-808
  const Rule57 := Rule(
    AtLeast("エースバーンex", 2),
    "エースバーンex",
    ["エースバーンex"])

  // internal/handlers/m1.go:810-819
  const Rule58 := Rule(
    AtLeast("エレキブルex", 2),
    "エレキブルex",
    ["エレキブルex"])

  // internal/handlers/m1.go:821-830
  const Rule59 := Rule(
    AtLeast("ビークインex", 2),
    "ビークインex",
    ["ビークインex"])

  // internal/handlers/m1.go:832-842
  const Rule60 := Rule(
    AtLeast("キョジオーン", 2),
    "キョジオーン",
    ["キョジオーン", "ピジョットex"])

  // internal/handlers/m1.go:844-854
  const Rule61 := Rule(
    AtLeast("デカヌチャンex", 2),
    "デカヌチャンex",
    ["デカヌチャンex", "ノココッチ"])

  // internal/handlers/m1.go:856-866
  const Rule62 := Rule(
    And(AtLeast("ブーバーン", 3), AtLeast("ボルケニオンex", 2)),
    "ブーバーン & ボルケニオンex",
    ["ブーバーン", "ボルケニオンex"])

  // internal/handlers/m1.go:868-878
  const Rule63 := Rule(
    And(AtLeast("ルガルガン", 3), AtLeast("スパイクエネルギー", 3)),
    "ルガルガン",
    ["ルガルガン", "スパイクエネルギー"])

  // internal/handlers/m1.go:880-889
  const Rule64 := Rule(
    AtLeast("ハルクジラex", 2),
    "ハルクジラex",
    ["ハルクジラex"])

  // internal/handlers/m1.go:891-900
  const Rule65 := Rule(
    AtLeast("メガヤンマex", 2),
    "メガヤンマex",
    ["メガヤンマex"])

  // internal/handlers/m1.go:902-911
  const Rule66 := Rule(
    AtLeast("マスカーニャex", 2),
    "マスカーニャex",
    ["マスカーニャex"])

  // internal/handlers/m1.go:913-925
  const Rule67 := Rule(
    And(AtLeast("ヤドキング", 3), AtLeast("夜のアカデミー", 3)),
    "ヤドキング",
    ["ヤドキング", "キュレム", "ローブシン", "レジギガス"])

  // internal/handlers/m1.go:927-938
  const Rule68 := Rule(
    AtLeast("ローブシン", 3),
    "ローブシン",
    ["ローブシン", "アラブルタケ", "モモワロウ"])

  // internal/handlers/m1.go:940-955
  const Rule69 := Rule(
    And(AtLeast("イダイナキバ", 3), Exactly("ニュートラルセンター(ACE SPEC)", 1)),
    "イダイナキバLO",
    ["イダイナキバ", "ソルロック", "ルナトーン", "ヒビキのウソッキー", "クラッシュハンマー", "ハンディサーキュレーター", "ニュートラルセンター(ACE SPEC)"])

  // internal/handlers/m1.go:957-970
  const Rule70 := Rule(
    AtLeast("バンギラス", 3),
    "バンギラス",
    ["バンギラス", "ノココッチ", "ドロンチ", "ピジョットex", "シャンデラ"])

  // internal/handlers/m1.go:972-987
  const Rule71 := Rule(
    AtLeast("ガチグマ アカツキ", 2),
    "ガチグマ アカツキ",
    ["ガチグマ アカツキ", "ガチグマ アカツキex", "ソルロック", "ルナトーン", "マラカッチ", "マシマシラ", "ラティアスex"])

  // internal/handlers/m1.go:989-999
  const Rule72 := Rule(
    AtLeast("ヒードラン", 3),
    "ヒードラン",
    ["ヒードラン", "メタング"])

  // internal/handlers/m1.go:1001-1010
  const Rule73 := Rule(
    AtLeast("ワナイダーex", 3),
    "ワナイダーex",
    ["ワナイダーex"])

  // internal/handlers/m1.go:1012-1021
  const Rule74 := Rule(
    AtLeast("イルカマンex", 3),
    "イルカマンex",
    ["イルカマンex"])

  // internal/handlers/m1.go:1023-1035
  const Rule75 := Rule(
    AtLeast("アマージョex", 2),
    "アマージョex",
    ["アマージョex", "ユキメノコ", "マシマシラ", "ピジョットex"])

  // internal/handlers/m1.go:1037-1047
  const Rule76 := Rule(
    And(AtLeast("リーリエのピッピex", 3), AtLeast("リーリエのしんじゅ", 3)),
    "リーリエのピッピex",
    ["リーリエのピッピex", "リーリエのしんじゅ"])

  // internal/handlers/m1.go:1049-1060
  const Rule77 := Rule(
    AtLeast("テツノイバラex", 3),
    "テツノイバラex",
    ["テツノイバラex", "クラッシュハンマー", "ポケモンキャッチャー"])

  // internal/handlers/m1.go:1062-1072
  const Rule78 := Rule(
    AtLeast("ホエルオー", 3),
    "ホエルオー",
    ["ホエルオー", "セグレイブ"])

  // internal/handlers/m1.go:1074-1085
  const Rule79 := Rule(
    AtLeast("イワパレス", 2),
    "イワパレス",
    ["イワパレス", "テツノイバラex", "オーガポン いしずえのめんex"])

  // internal/handlers/m1.go:1087-1102
  const Rule80 := Rule(
    And(AtLeast("ミライドンex", 2), Exactly("バチュル", 0)),
    "ミライドンex",
    ["ミライドンex", "シビビール", "レアコイル", "テツノカイナex", "ゼクロムex", "ピカチュウex", "メガライボルトex"])

  // internal/handlers/m1.go:1104-1116
  const Rule81 := Rule(
    AtLeast("メガライボルトex", 3),
    "メガライボルトex",
    ["メガライボルトex", "レアコイル", "テツノカイナex", "ゼクロムex"])

  // internal/handlers/m1.go:1118-1132
  const Rule82 := Rule(
    And(AtLeast("バチュル", 2), Or(Or(AtLeast("テツノカイナex", 1), AtLeast("ピカチュウex", 1)), AtLeast("テツノイサハex", 1))),
    "バチュルバレット",
    ["バチュル", "ミライドンex", "テツノカイナex", "ゼクロムex", "ピカチュウex", "テツノイサハex"])

  // internal/handlers/m1.go:1134-1151
  const Rule83 := Rule(
    And(And(And(And(Exactly("タケルライコex", 0), Exactly("リザードンex", 0)), Or(Or(AtLeast("オーガポン みどりのめんex", 1), AtLeast("オーガポン いどのめんex", 1)), AtLeast("オーガポン いしずえのめんex", 1))), Or(Or(Or(AtLeast("テラパゴスex", 1), AtLeast("ピカチュウex", 1)), AtLeast("テツノイサハex", 1)), AtLeast("リーリエのピッピex", 1))), AtLeast("ゼロの大空洞", 2)),
    "テラスタルバレット",
    ["オーガポン みどりのめんex", "オーガポン いどのめんex", "オーガポン いしずえのめんex", "テラパゴスex", "ピカチュウex", "テツノイサハex", "リーリエのピッピex", "メガガルーラex", "ゼロの大空洞"])

  // internal/handlers/m1.go:1153-1168
  const Rule84 := Rule(
    And(And(And(And(Exactly("タケルライコex", 0), Exactly("リザードンex", 0)), AtLeast("オーガポン みどりのめんex", 3)), And(AtLeast("オーガポン いどのめんex", 1), AtLeast("オーガポン いしずえのめんex", 1))), Not(Or(Or(AtLeast("テラパゴスex", 1), AtLeast("ピカチュウex", 1)), AtLeast("テツノイサハex", 1)))),
    "オーガポンバレット",
    ["オーガポン みどりのめんex", "オーガポン いどのめんex", "オーガポン いしずえのめんex", "リーリエのピッピex", "ミュウex", "メガガルーラex", "鬼の仮面"])

  // internal/handlers/m1.go:1170-1181
  const Rule85 := Rule(
    AtLeast("ホップのザシアンex", 2),
    "ホップのザシアンex",
    ["ホップのザシアンex", "ホップのカビゴン", "ホップのウッウ"])

  // internal/handlers/m1.go:1183-1192
  const Rule86 := Rule(
    AtLeast("オリーヴァex", 2),
    "オリーヴァex",
    ["オリーヴァex"])

  // internal/handlers/m1.go:1194-1203
  const Rule87 := Rule(
    AtLeast("メガゲンガーex", 2),
    "メガゲンガーex",
    ["メガゲンガーex"])

  // internal/handlers/m1.go:1205-1216
  const Rule88 := Rule(
    AtLeast("ミロカロスex", 2),
    "ミロカロスex",
    ["ミロカロスex", "オンバーンex", "オーガポン いしずえのめんex"])

  // internal/handlers/m1.go:1218-1229
  const Rule89 := Rule(
    AtLeast("リキキリンex", 2),
    "リキキリンex",
    ["リキキリンex", "オンバーンex", "オーガポン いしずえのめんex"])

  // internal/handlers/m1.go:1231-1241
  const Rule90 := Rule(
    And(And(Exactly("マリィのオーロンゲex", 0), AtLeast("ユキメノコ", 2)), AtLeast("マシマシラ", 3)),
    "ユキメノコ & マシマシラ",
    ["ユキメノコ", "マシマシラ"])

  // internal/handlers/m1.go:1243-1256
  const Rule91 := Rule(
    And(And(And(AtLeast("カットロトム", 1), AtLeast("ヒートロトム", 1)), AtLeast("ウォッシュロトム", 1)), AtLeast("ロトム", 1)),
    "ロトムバレット",
    ["カットロトム", "ヒートロトム", "ウォッシュロトム", "ロトム", "スピンロトム"])

  // internal/handlers/m1.go:1258-1270
  const Rule92 := Rule(
    And(And(Or(AtLeast("カミッチュ", 2), AtLeast("アズマオウ", 2)), AtLeast("バチンキー", 3)), AtLeast("お祭り会場", 3)),
    "おまつりおんど",
    ["カミッチュ", "アズマオウ", "バチンキー", "お祭り会場"])

  // internal/handlers/m1.go:1272-1285
  const Rule93 := Rule(
    And(And(AtLeast("ミライドン", 2), AtLeast("テツノカシラex", 2)), AtLeast("テクノレーダー", 2)),
    "未来バレット",
    ["ミライドン", "テツノカシラex", "テツノカイナex", "テツノブジンex", "テツノイサハex"])

  // internal/handlers/m1.go:1287-1301
  const Rule94 := Rule(
    And(And(And(And(Exactly("トドロクツキex", 0), Exactly("トドロクツキ", 0)), AtLeast("モモワロウ", 2)), AtLeast("アラブルタケ", 2)), AtLeast("危険な密林", 3)),
    "毒ギミック",
    ["オンバーンex", "メガラティアスex", "モモワロウ", "アラブルタケ", "オンバーンex", "危険な密林"])

  // internal/handlers/m1.go:1303-1317
  const Rule95 := Rule(
    AtLeast("シャリタツex", 2),
    "シャリタツex",
    ["シャリタツex", "リザードンex", "バシャーモex", "ゲッコウガex", "ドラパルトex", "ピジョットex"])

  // internal/handlers/m1.go:1319-1335
  const Rule96 := Rule(
    AtLeast("ウミトリオ", 3),
    "ウミトリオLO",
    ["ウミトリオ", "ノココッチ", "ドロンチ", "チルタリス", "クラッシュハンマー", "おはやし笛", "イグニッションエネルギー", "リバーサルエネルギー"])

  // internal/handlers/m1.go:1337-1351
  const Rule97 := Rule(
    AtLeast("リグレー", 2),
    "リグレーコントロール",
    ["リグレー", "タマンタ", "ヒビキのウソッキー", "ピィ", "ケーシィ", "ピジョットex"])

  // internal/handlers/m1.go:1353-1370
  const Rule98 := Rule(
    And(And(AtLeast("おはやし笛", 2), AtLeast("クセロシキのたくらみ", 1)), AtLeast("ビワ", 1)),
    "コントロール",
    ["ロケット団のリーシャン", "ヒビキのウソッキー", "ミロカロス", "ゲノセクト", "イーユイex", "ディンルーex", "おはやし笛", "クセロシキのたくらみ", "ビワ"])

  // internal/handlers/m1.go:1372-1385
  const Rule99 := Rule(
    And(And(AtLeast("メガニウム", 2), AtLeast("オーガポン みどりのめんex", 3)), AtLeast("活力の森", 2)),
    "おいしげる",
    ["メガニウム", "オーガポン みどりのめんex", "カミツオロチex", "メガヤンマex", "活力の森"])

  // internal/handlers/m1.go:1387-1397
  const Rule100 := Rule(
    And(AtLeast("ニンフィア", 3), AtLeast("エクスレッグ", 2)),
    "ニンフィア + エクスレッグ",
    ["ニンフィア", "エクスレッグ"])
}
