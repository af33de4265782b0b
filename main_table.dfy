/** The rule cascade of `Get` (main.go:189-812) as data: one rule per `if`,
    in declaration order, `RuleK` is the `if` at position K, marked with the lines it comes from.
    Card names, thresholds, titles and name lists are as written there. */
module MainTable {
  import opened Rules

  /** The whole cascade, in declaration order (written in runs of ten rules). */
  const Table: seq<Rule> :=
    [Rule0, Rule1, Rule2, Rule3, Rule4, Rule5, Rule6, Rule7, Rule8, Rule9] +
    [Rule10, Rule11, Rule12, Rule13, Rule14, Rule15, Rule16, Rule17, Rule18, Rule19] +
    [Rule20, Rule21, Rule22, Rule23, Rule24, Rule25, Rule26, Rule27, Rule28, Rule29] +
    [Rule30, Rule31, Rule32, Rule33, Rule34, Rule35, Rule36, Rule37, Rule38, Rule39] +
    [Rule40, Rule41, Rule42, Rule43, Rule44, Rule45, Rule46, Rule47]

  // main.go:189-203
  const Rule0 := Rule(
    And(AtLeast("タケルライコex", 2), AtLeast("オーガポン みどりのめんex", 3)),
    "タケルライコex",
    ["タケルライコex", "オーガポン みどりのめんex", "タケルライコ", "コライドン", "チヲハウハネ", "テツノイサハex"])

  // main.go:205-218
  const Rule1 := Rule(
    AtLeast("リザードンex", 2),
    "リザードンex",
    ["リザードンex", "ピジョットex", "ヨルノズク", "ヨノワール", "テラパゴスex"])

  // main.go:220-232
  const Rule2 := Rule(
    And(And(AtLeast("ドラパルトex", 2), AtLeast("ドロンチ", 3)), AtLeast("ドラメシヤ", 3)),
    "ドラパルトex",
    ["ドラパルトex", "ヨノワール", "ピジョットex", "ロケット団のクロバットex"])

  // main.go:234-245
  const Rule3 := Rule(
    AtLeast("マリィのオーロンゲex", 2),
    "マリィのオーロンゲex",
    ["マリィのオーロンゲex", "ユキメノコ", "マシマシラ"])

  // main.go:247-256
  const Rule4 := Rule(
    AtLeast("サーナイトex", 2),
    "サーナイトex",
    ["サーナイトex"])

  // main.go:258-271
  const Rule5 := Rule(
    AtLeast("ブリジュラスex", 2),
    "ブリジュラスex",
    ["ブリジュラスex", "ホップのバイウールー", "ノココッチ", "モモワロウ", "アラブルタケ"])

  // main.go:273-284
  const Rule6 := Rule(
    AtLeast("ソウブレイズex", 2),
    "ソウブレイズex",
    ["ソウブレイズex", "ノココッチ", "ブロロローム"])

  // main.go:286-299
  const Rule7 := Rule(
    AtLeast("サーフゴーex", 2),
    "サーフゴーex",
    ["サーフゴーex", "ドラパルトex", "ノココッチ", "ヒビキのバクフーン", "ハッサム"])

  // main.go:301-310
  const Rule8 := Rule(
    AtLeast("バシャーモex", 2),
    "バシャーモex",
    ["バシャーモex"])

  // main.go:312-321
  const Rule9 := Rule(
    AtLeast("ゲッコウガex", 2),
    "ゲッコウガex",
    ["ゲッコウガex"])

  // main.go:323-332
  const Rule10 := Rule(
    AtLeast("ダイゴのメタグロスex", 2),
    "ダイゴのメタグロスex",
    ["ダイゴのメタグロスex"])

  // main.go:334-343
  const Rule11 := Rule(
    AtLeast("パピナスex", 2),
    "パピナスex",
    ["パピナスex"])

  // main.go:345-354
  const Rule12 := Rule(
    AtLeast("サザンドラex", 2),
    "サザンドラex",
    ["サザンドラex"])

  // main.go:356-369
  const Rule13 := Rule(
    AtLeast("ナンジャモのハラバリーex", 2),
    "ナンジャモのハラバリーex",
    ["ナンジャモのハラバリーex", "ナンジャモのタイカイデン", "ナンジャモのビリリダマ", "ミライドンex", "タケルライコex"])

  // main.go:371-381
  const Rule14 := Rule(
    And(AtLeast("ヒビキのバクフーン", 2), Exactly("ヒビキの冒険", 4)),
    "ヒビキのバクフーン",
    ["ヒビキのバクフーン", "ヒビキの冒険"])

  // main.go:383-392
  const Rule15 := Rule(
    AtLeast("カミツオロチex", 2),
    "カミツオロチex",
    ["カミツオロチex"])

  // main.go:394-403
  const Rule16 := Rule(
    AtLeast("ロケット団のクロバットex", 2),
    "ロケット団のクロバットex",
    ["ロケット団のクロバットex"])

  // main.go:405-424
  const Rule17 := Rule(
    And(And(AtLeast("イーブイex", 1), AtLeast("イーブイ", 1)), Or(Or(Or(Or(Or(Or(Or(AtLeast("ブースターex", 1), AtLeast("シャワーズex", 1)), AtLeast("サンダースex", 1)), AtLeast("エーフィex", 1)), AtLeast("ブラッキーex", 1)), AtLeast("リーフィアex", 1)), AtLeast("グレイシアex", 1)), AtLeast("ニンフィアex", 1))),
    "ブイズバレット",
    ["イーブイex", "ブースターex", "シャワーズex", "サンダースex", "エーフィex", "ブラッキーex", "リーフィアex", "グレイシアex", "ニンフィアex"])

  // main.go:426-439
  const Rule18 := Rule(
    AtLeast("シロナのガブリアスex", 2),
    "シロナのガブリアスex",
    ["シロナのガブリアスex", "シロナのロズレイド", "シロナのミカルゲ", "ユキメノコ", "マシマシラ"])

  // main.go:441-450
  const Rule19 := Rule(
    AtLeast("オーダイル", 2),
    "オーダイル",
    ["オーダイル"])

  // main.go:452-461
  const Rule20 := Rule(
    AtLeast("クエスパトラex", 2),
    "クエスパトラex",
    ["クエスパトラex"])

  // main.go:463-472
  const Rule21 := Rule(
    Exactly("イイネイヌ", 4),
    "イイネイヌ",
    ["イイネイヌ"])

  // main.go:474-484
  const Rule22 := Rule(
    And(AtLeast("ロケット団のミュウツーex", 2), AtLeast("ロケット団のワナイダー", 3)),
    "ロケット団のミュウツーex",
    ["ロケット団のミュウツーex", "ロケット団のワナイダー"])

  // main.go:486-496
  const Rule23 := Rule(
    And(AtLeast("パオジアンex", 2), AtLeast("セグレイブ", 2)),
    "パオジアンex",
    ["パオジアンex", "セグレイブ"])

  // main.go:498-507
  const Rule24 := Rule(
    And(And(AtLeast("トドロクツキex", 2), Exactly("イダイナキバ", 0)), Exactly("コライドン", 0)),
    "トドロクツキex",
    ["トドロクツキex"])

  // main.go:509-521
  const Rule25 := Rule(
    And(AtLeast("Nのゾロアークex", 3), Or(Or(AtLeast("Nのヒヒダルマ", 2), AtLeast("Nのレシラム", 1)), AtLeast("Nのシンボラー", 1))),
    "Nのゾロアークex",
    ["Nのゾロアークex", "Nのヒヒダルマ", "Nのレシラム", "Nのシンボラー"])

  // main.go:523-534
  const Rule26 := Rule(
    And(AtLeast("ヒビキのホウオウex", 2), Exactly("グレンアルマ", 0)),
    "ヒビキのホウオウex",
    ["ヒビキのホウオウex", "ヒビキのマグカルゴ", "ヒビキのカイロス"])

  // main.go:536-550
  const Rule27 := Rule(
    And(AtLeast("ヒビキのホウオウex", 2), AtLeast("グレンアルマ", 2)),
    "ひおくりバレット",
    ["ヒビキのホウオウex", "グレンアルマ", "オーガポン いどのめんex", "テツノカイナex", "リーリエのピッピex", "レジギガス"])

  // main.go:552-561
  const Rule28 := Rule(
    AtLeast("ハルクジラex", 2),
    "ハルクジラex",
    ["ハルクジラex"])

  // main.go:563-572
  const Rule29 := Rule(
    AtLeast("メガヤンマex", 2),
    "メガヤンマex",
    ["メガヤンマex"])

  // main.go:574-583
  const Rule30 := Rule(
    AtLeast("マスカーニャex", 2),
    "マスカーニャex",
    ["マスカーニャex"])

  // main.go:585-597
  const Rule31 := Rule(
    And(AtLeast("ヤドキング", 3), AtLeast("夜のアカデミー", 3)),
    "ヤドキング",
    ["ヤドキング", "キュレム", "ローブシン", "レジギガス"])

  // main.go:599-611
  const Rule32 := Rule(
    And(AtLeast("イダイナキバ", 3), Exactly("ニュートラルセンター", 1)),
    "イダイナキバLO",
    ["イダイナキバ", "ヒビキのウソッキー", "クラッシュハンマー", "ニュートラルセンター"])

  // main.go:613-626
  const Rule33 := Rule(
    AtLeast("バンギラス", 3),
    "バンギラス",
    ["バンギラス", "ノココッチ", "ドロンチ", "ピジョットex", "シャンデラ"])

  // main.go:628-637
  const Rule34 := Rule(
    AtLeast("イルカマンex", 2),
    "イルカマンex",
    ["イルカマンex"])

  // main.go:639-651
  const Rule35 := Rule(
    AtLeast("アマージョex", 2),
    "アマージョex",
    ["アマージョex", "ユキメノコ", "マシマシラ", "ピジョットex"])

  // main.go:653-664
  const Rule36 := Rule(
    AtLeast("イワパレス", 3),
    "イワパレス",
    ["イワパレス", "テツノイバラex", "オーガポン いしずえのめんex"])

  // main.go:666-678
  const Rule37 := Rule(
    And(AtLeast("ミライドンex", 2), Exactly("バチュル", 0)),
    "ミライドンex",
    ["ミライドンex", "レアコイル", "テツノカイナex", "ピカチュウex"])

  // main.go:680-693
  const Rule38 := Rule(
    And(And(AtLeast("バチュル", 2), AtLeast("テツノカイナex", 1)), AtLeast("ピカチュウex", 1)),
    "バチュルバレット",
    ["バチュル", "ミライドンex", "テツノカイナex", "ピカチュウex", "テツノイサハex"])

  // main.go:695-706
  const Rule39 := Rule(
    AtLeast("ホップのザシアンex", 2),
    "ホップのザシアンex",
    ["ホップのザシアンex", "ホップのカビゴン", "ホップのウッウ"])

  // main.go:708-717
  const Rule40 := Rule(
    AtLeast("オリーヴァex", 2),
    "オリーヴァex",
    ["オリーヴァex"])

  // main.go:719-728
  const Rule41 := Rule(
    AtLeast("ロケット団のポリゴンZ", 3),
    "ロケット団のポリゴンZ",
    ["ロケット団のポリゴンZ"])

  // main.go:730-742
  const Rule42 := Rule(
    AtLeast("ミロカロスex", 2),
    "ミロカロスex",
    ["ミロカロスex", "リキキリンex", "オンバーンex", "オーガポン いしずえのめんex"])

  // main.go:744-754
  const Rule43 := Rule(
    And(And(AtLeast("ユキメノコ", 3), AtLeast("マシマシラ", 3)), Exactly("マリィのオーロンゲex", 0)),
    "ユキメノコ & マシマシラ",
    ["ユキメノコ", "マシマシラ"])

  // main.go:756-769
  const Rule44 := Rule(
    And(And(And(Exactly("トドロクツキ", 4), Or(Or(AtLeast("ハバタクカミ", 1), AtLeast("イダイナキバ", 1)), AtLeast("コライドン", 1))), Exactly("オーリム博士の気迫", 4)), Exactly("探検家の先導", 4)),
    "古代バレット",
    ["トドロクツキ", "ハバタクカミ", "イダイナキバ", "コライドン", "トドロクツキex"])

  // main.go:771-784
  const Rule45 := Rule(
    And(And(And(AtLeast("カットロトム", 1), AtLeast("ヒートロトム", 1)), AtLeast("ウォッシュロトム", 1)), AtLeast("ロトム", 1)),
    "ロトムバレット",
    ["カットロトム", "ヒートロトム", "ウォッシュロトム", "ロトム", "スピンロトム"])

  // main.go:786-797
  const Rule46 := Rule(
    And(And(AtLeast("カミッチュ", 3), AtLeast("バチンキー", 3)), AtLeast("お祭り会場", 3)),
    "おまつりおんど",
    ["カミッチュ", "バチンキー", "お祭り会場"])

  // main.go:799-812
  const Rule47 := Rule(
    And(And(AtLeast("ミライドン", 2), AtLeast("テツノカシラex", 2)), AtLeast("テクノレーダー", 2)),
    "未来バレット",
    ["ミライドン", "テツノカシラex", "テツノカイナex", "テツノブジンex", "テツノイサハex"])
}
