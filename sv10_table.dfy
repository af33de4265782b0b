/** The rule cascade of `GetSV10` (internal/handlers/sv10.go:52-1175) as data: one rule per `if`,
    in declaration order, `RuleK` is the `if` at position K, marked with the lines it comes from.
    Card names, thresholds, titles and name lists are as written there. */
module SV10Table {
  import opened Rules

  /** The whole cascade, in declaration order (written in runs of ten rules). */
  const Table: seq<Rule> :=
    [Rule0, Rule1, Rule2, Rule3, Rule4, Rule5, Rule6, Rule7, Rule8, Rule9] +
    [Rule10, Rule11, Rule12, Rule13, Rule14, Rule15, Rule16, Rule17, Rule18, Rule19] +
    [Rule20, Rule21, Rule22, Rule23, Rule24, Rule25, Rule26, Rule27, Rule28, Rule29] +
    [Rule30, Rule31, Rule32, Rule33, Rule34, Rule35, Rule36, Rule37, Rule38, Rule39] +
    [Rule40, Rule41, Rule42, Rule43, Rule44, Rule45, Rule46, Rule47, Rule48, Rule49] +
    [Rule50, Rule51, Rule52, Rule53, Rule54, Rule55, Rule56, Rule57, Rule58, Rule59] +
    [Rule60, Rule61, Rule62, Rule63, Rule64, Rule65, Rule66, Rule67, Rule68, Rule69] +
    [Rule70, Rule71, Rule72, Rule73, Rule74, Rule75, Rule76, Rule77, Rule78, Rule79] +
    [Rule80, Rule81, Rule82, Rule83, Rule84, Rule85, Rule86]

  // internal/handlers/sv10.go:52-66
  const Rule0 := Rule(
    And(AtLeast("タケルライコex", 2), AtLeast("オーガポン みどりのめんex", 2)),
    "タケルライコex",
    ["タケルライコex", "オーガポン みどりのめんex", "タケルライコ", "コライドン", "チヲハウハネ", "テツノイサハex"])

  // internal/handlers/sv10.go:68-81
  const Rule1 := Rule(
    AtLeast("リザードンex", 2),
    "リザードンex",
    ["リザードンex", "ピジョットex", "ヨルノズク", "ヨノワール", "テラパゴスex"])

  // internal/handlers/sv10.go:83-95
  const Rule2 := Rule(
    And(And(AtLeast("ドラパルトex", 2), AtLeast("ドロンチ", 3)), AtLeast("ドラメシヤ", 3)),
    "ドラパルトex",
    ["ドラパルトex", "ヨノワール", "ピジョットex", "ロケット団のクロバットex"])

  // internal/handlers/sv10.go:97-108
  const Rule3 := Rule(
    AtLeast("マリィのオーロンゲex", 2),
    "マリィのオーロンゲex",
    ["マリィのオーロンゲex", "ユキメノコ", "マシマシラ"])

  // internal/handlers/sv10.go:110-119
  const Rule4 := Rule(
    AtLeast("サーナイトex", 2),
    "サーナイトex",
    ["サーナイトex"])

  // internal/handlers/sv10.go:121-134
  const Rule5 := Rule(
    AtLeast("ブリジュラスex", 2),
    "ブリジュラスex",
    ["ブリジュラスex", "ホップのバイウールー", "ノココッチ", "モモワロウ", "アラブルタケ"])

  // internal/handlers/sv10.go:136-145
  const Rule6 := Rule(
    AtLeast("ダイオウドウex", 2),
    "ダイオウドウex",
    ["ダイオウドウex"])

  // internal/handlers/sv10.go:147-158
  const Rule7 := Rule(
    AtLeast("ソウブレイズex", 2),
    "ソウブレイズex",
    ["ソウブレイズex", "ノココッチ", "ブロロローム"])

  // internal/handlers/sv10.go:160-173
  const Rule8 := Rule(
    AtLeast("サーフゴーex", 2),
    "サーフゴーex",
    ["サーフゴーex", "ドラパルトex", "ノココッチ", "ヒビキのバクフーン", "ハッサム"])

  // internal/handlers/sv10.go:175-184
  const Rule9 := Rule(
    AtLeast("バシャーモex", 2),
    "バシャーモex",
    ["バシャーモex"])

  // internal/handlers/sv10.go:186-195
  const Rule10 := Rule(
    AtLeast("ゲッコウガex", 2),
    "ゲッコウガex",
    ["ゲッコウガex"])

  // internal/handlers/sv10.go:197-206
  const Rule11 := Rule(
    AtLeast("ダイゴのメタグロスex", 2),
    "ダイゴのメタグロスex",
    ["ダイゴのメタグロスex"])

  // internal/handlers/sv10.go:208-218
  const Rule12 := Rule(
    AtLeast("ハピナスex", 2),
    "ハピナスex",
    ["ハピナスex", "マシマシラ"])

  // internal/handlers/sv10.go:220-229
  const Rule13 := Rule(
    AtLeast("ガオガエンex", 2),
    "ガオガエンex",
    ["ガオガエンex"])

  // internal/handlers/sv10.go:231-240
  const Rule14 := Rule(
    AtLeast("サザンドラex", 2),
    "サザンドラex",
    ["サザンドラex"])

  // internal/handlers/sv10.go:242-255
  const Rule15 := Rule(
    AtLeast("ナンジャモのハラバリーex", 2),
    "ナンジャモのハラバリーex",
    ["ナンジャモのハラバリーex", "ナンジャモのタイカイデン", "ナンジャモのビリリダマ", "ミライドンex", "タケルライコex"])

  // internal/handlers/sv10.go:257-267
  const Rule16 := Rule(
    And(AtLeast("ヒビキのバクフーン", 2), Exactly("ヒビキの冒険", 4)),
    "ヒビキのバクフーン",
    ["ヒビキのバクフーン", "ヒビキの冒険"])

  // internal/handlers/sv10.go:269-278
  const Rule17 := Rule(
    AtLeast("カミツオロチex", 2),
    "カミツオロチex",
    ["カミツオロチex"])

  // internal/handlers/sv10.go:280-291
  const Rule18 := Rule(
    AtLeast("スコヴィランex", 3),
    "スコヴィランex",
    ["スコヴィランex", "オーガポン みどりのめんex", "ユキメノコ"])

  // internal/handlers/sv10.go:293-312
  const Rule19 := Rule(
    And(Or(AtLeast("イーブイex", 1), AtLeast("イーブイ", 1)), Or(Or(Or(Or(Or(Or(Or(AtLeast("ブースターex", 1), AtLeast("シャワーズex", 1)), AtLeast("サンダースex", 1)), AtLeast("エーフィex", 1)), AtLeast("ブラッキーex", 1)), AtLeast("リーフィアex", 1)), AtLeast("グレイシアex", 1)), AtLeast("ニンフィアex", 1))),
    "ブイズバレット",
    ["イーブイex", "ブースターex", "シャワーズex", "サンダースex", "エーフィex", "ブラッキーex", "リーフィアex", "グレイシアex", "ニンフィアex"])

  // internal/handlers/sv10.go:314-327
  const Rule20 := Rule(
    AtLeast("シロナのガブリアスex", 2),
    "シロナのガブリアスex",
    ["シロナのガブリアスex", "シロナのロズレイド", "シロナのミカルゲ", "ユキメノコ", "マシマシラ"])

  // internal/handlers/sv10.go:329-338
  const Rule21 := Rule(
    AtLeast("オーダイル", 2),
    "オーダイル",
    ["オーダイル"])

  // internal/handlers/sv10.go:340-349
  const Rule22 := Rule(
    AtLeast("クエスパトラex", 2),
    "クエスパトラex",
    ["クエスパトラex"])

  // internal/handlers/sv10.go:351-360
  const Rule23 := Rule(
    AtLeast("イイネイヌ", 3),
    "イイネイヌ",
    ["イイネイヌ"])

  // internal/handlers/sv10.go:362-372
  const Rule24 := Rule(
    And(AtLeast("ロケット団のミュウツーex", 2), AtLeast("ロケット団のワナイダー", 3)),
    "ロケット団のミュウツーex",
    ["ロケット団のミュウツーex", "ロケット団のワナイダー"])

  // internal/handlers/sv10.go:374-383
  const Rule25 := Rule(
    AtLeast("ロケット団のクロバットex", 2),
    "ロケット団のクロバットex",
    ["ロケット団のクロバットex"])

  // internal/handlers/sv10.go:385-394
  const Rule26 := Rule(
    AtLeast("ロケット団のバンギラス", 2),
    "ロケット団のバンギラス",
    ["ロケット団のバンギラス"])

  // internal/handlers/sv10.go:396-405
  const Rule27 := Rule(
    AtLeast("ロケット団のデンリュウ", 2),
    "ロケット団のデンリュウ",
    ["ロケット団のデンリュウ"])

  // internal/handlers/sv10.go:407-416
  const Rule28 := Rule(
    AtLeast("ロケット団のペルシアンex", 2),
    "ロケット団のペルシアンex",
    ["ロケット団のペルシアンex"])

  // internal/handlers/sv10.go:418-427
  const Rule29 := Rule(
    AtLeast("ロケット団のニドキングex", 2),
    "ロケット団のニドキングex",
    ["ロケット団のニドキングex"])

  // internal/handlers/sv10.go:429-439
  const Rule30 := Rule(
    AtLeast("ロケット団のニドクイン", 2),
    "ロケット団のニドクイン",
    ["ロケット団のニドクイン", "ニドキング"])

  // internal/handlers/sv10.go:441-450
  const Rule31 := Rule(
    AtLeast("ロケット団のアーボック", 2),
    "ロケット団のアーボック",
    ["ロケット団のアーボック"])

  // internal/handlers/sv10.go:452-461
  const Rule32 := Rule(
    AtLeast("ロケット団のファイヤーex", 2),
    "ロケット団のファイヤーex",
    ["ロケット団のファイヤーex"])

  // internal/handlers/sv10.go:463-472
  const Rule33 := Rule(
    AtLeast("ロケット団のポリゴンZ", 3),
    "ロケット団のポリゴンZ",
    ["ロケット団のポリゴンZ"])

  // internal/handlers/sv10.go:474-484
  const Rule34 := Rule(
    And(AtLeast("パオジアンex", 2), AtLeast("セグレイブ", 2)),
    "パオジアンex",
    ["パオジアンex", "セグレイブ"])

  // internal/handlers/sv10.go:486-497
  const Rule35 := Rule(
    AtLeast("テラパゴスex", 3),
    "テラパゴスex",
    ["テラパゴスex", "ヨルノズク", "バッフロン"])

  // internal/handlers/sv10.go:499-510
  const Rule36 := Rule(
    And(And(AtLeast("ヨノワール", 3), AtLeast("サマヨール", 3)), AtLeast("ヨマワル", 3)),
    "カースドボム",
    ["ヨノワール", "サマヨール", "ヨマワル"])

  // internal/handlers/sv10.go:512-525
  const Rule37 := Rule(
    And(And(AtLeast("トドロクツキex", 2), AtMost("トドロクツキ", 2)), And(Exactly("モモワロウ", 0), Exactly("アラブルタケ", 0))),
    "トドロクツキex",
    ["トドロクツキex", "トドロクツキ", "モモワロウ", "アラブルタケ", "危険な密林"])

  // internal/handlers/sv10.go:527-540
  const Rule38 := Rule(
    And(And(And(Exactly("トドロクツキ", 4), Or(AtLeast("イダイナキバ", 1), AtLeast("コライドン", 1))), Exactly("オーリム博士の気迫", 4)), AtLeast("探検家の先導", 3)),
    "古代バレット",
    ["トドロクツキ", "ハバタクカミ", "イダイナキバ", "コライドン", "トドロクツキex"])

  // internal/handlers/sv10.go:542-555
  const Rule39 := Rule(
    And(And(And(And(Or(AtLeast("トドロクツキex", 2), AtLeast("トドロクツキ", 2)), AtLeast("モモワロウ", 2)), AtLeast("アラブルタケ", 2)), Exactly("オーリム博士の気迫", 4)), AtLeast("危険な密林", 3)),
    "毒トドロクツキ",
    ["トドロクツキex", "トドロクツキ", "モモワロウ", "アラブルタケ", "危険な密林"])

  // internal/handlers/sv10.go:557-569
  const Rule40 := Rule(
    And(AtLeast("Nのゾロアークex", 3), Or(Or(AtLeast("Nのヒヒダルマ", 2), AtLeast("Nのレシラム", 1)), AtLeast("Nのシンボラー", 1))),
    "Nのゾロアークex",
    ["Nのゾロアークex", "Nのヒヒダルマ", "Nのレシラム", "Nのシンボラー"])

  // internal/handlers/sv10.go:571-582
  const Rule41 := Rule(
    And(AtLeast("ヒビキのホウオウex", 2), Exactly("グレンアルマ", 0)),
    "ヒビキのホウオウex",
    ["ヒビキのホウオウex", "ヒビキのマグカルゴ", "ヒビキのカイロス"])

  // internal/handlers/sv10.go:584-598
  const Rule42 := Rule(
    And(AtLeast("ヒビキのホウオウex", 2), AtLeast("グレンアルマ", 2)),
    "ひおくりバレット",
    ["ヒビキのホウオウex", "グレンアルマ", "オーガポン いどのめんex", "テツノカイナex", "リーリエのピッピex", "レジギガス"])

  // internal/handlers/sv10.go:600-616
  const Rule43 := Rule(
    AtLeast("マンムーex", 2),
    "マンムーex",
    ["マンムーex", "ピジョットex", "キョジオーン", "バシャーモex", "ガブリアスex", "レントラーex", "レントラー", "ヨノワール"])

  // internal/handlers/sv10.go:618-630
  const Rule44 := Rule(
    AtLeast("ウガツホムラex", 2),
    "ウガツホムラex",
    ["ウガツホムラex", "トドロクツキex", "モモワロウ", "アラブルタケ"])

  // internal/handlers/sv10.go:632-644
  const Rule45 := Rule(
    Or(AtLeast("ヤバソチャex", 1), AtLeast("ヤバソチャ", 2)),
    "ヤバソチャex",
    ["ヤバソチャex", "ヤバソチャ", "オーガポン みどりのめんex", "テツノイサハex"])

  // internal/handlers/sv10.go:646-656
  const Rule46 := Rule(
    AtLeast("デスカーンex", 2),
    "デスカーンex",
    ["デスカーンex", "ノココッチ"])

  // internal/handlers/sv10.go:658-667
  const Rule47 := Rule(
    AtLeast("フーディンex", 2),
    "フーディンex",
    ["フーディンex"])

  // internal/handlers/sv10.go:669-680
  const Rule48 := Rule(
    AtLeast("ペンドラー", 2),
    "ペンドラー",
    ["ペンドラー", "モモワロウ", "アラブルタケ"])

  // internal/handlers/sv10.go:682-691
  const Rule49 := Rule(
    AtLeast("レントラーex", 3),
    "レントラーex",
    ["レントラーex"])

  // internal/handlers/sv10.go:693-702
  const Rule50 := Rule(
    AtLeast("エースバーンex", 2),
    "エースバーンex",
    ["エースバーンex"])

  // internal/handlers/sv10.go:704-713
  const Rule51 := Rule(
    AtLeast("エレキブルex", 2),
    "エレキブルex",
    ["エレキブルex"])

  // internal/handlers/sv10.go:715-724
  const Rule52 := Rule(
    AtLeast("ビークインex", 2),
    "ビークインex",
    ["ビークインex"])

  // internal/handlers/sv10.go:726-736
  const Rule53 := Rule(
    AtLeast("キョジオーン", 2),
    "キョジオーン",
    ["キョジオーン", "ピジョットex"])

  // internal/handlers/sv10.go:738-748
  const Rule54 := Rule(
    AtLeast("デカヌチャンex", 2),
    "デカヌチャンex",
    ["デカヌチャンex", "ノココッチ"])

  // internal/handlers/sv10.go:750-760
  const Rule55 := Rule(
    And(AtLeast("ブーバーン", 3), AtLeast("ボルケニオンex", 2)),
    "ブーバーン & ボルケニオンex",
    ["ブーバーン", "ボルケニオンex"])

  // internal/handlers/sv10.go:762-772
  const Rule56 := Rule(
    And(AtLeast("ルガルガン", 3), AtLeast("スパイクエネルギー", 3)),
    "ルガルガン",
    ["ルガルガン", "スパイクエネルギー"])

  // internal/handlers/sv10.go:774-783
  const Rule57 := Rule(
    AtLeast("ハルクジラex", 2),
    "ハルクジラex",
    ["ハルクジラex"])

  // internal/handlers/sv10.go:785-794
  const Rule58 := Rule(
    AtLeast("メガヤンマex", 2),
    "メガヤンマex",
    ["メガヤンマex"])

  // internal/handlers/sv10.go:796-805
  const Rule59 := Rule(
    AtLeast("マスカーニャex", 2),
    "マスカーニャex",
    ["マスカーニャex"])

  // internal/handlers/sv10.go:807-819
  const Rule60 := Rule(
    And(AtLeast("ヤドキング", 3), AtLeast("夜のアカデミー", 3)),
    "ヤドキング",
    ["ヤドキング", "キュレム", "ローブシン", "レジギガス"])

  // internal/handlers/sv10.go:821-832
  const Rule61 := Rule(
    AtLeast("ローブシン", 3),
    "ローブシン",
    ["ローブシン", "アラブルタケ", "モモワロウ"])

  // internal/handlers/sv10.go:834-846
  const Rule62 := Rule(
    And(AtLeast("イダイナキバ", 3), Exactly("ニュートラルセンター(ACE SPEC)", 1)),
    "イダイナキバLO",
    ["イダイナキバ", "ヒビキのウソッキー", "クラッシュハンマー", "ニュートラルセンター(ACE SPEC)"])

  // internal/handlers/sv10.go:848-861
  const Rule63 := Rule(
    AtLeast("バンギラス", 3),
    "バンギラス",
    ["バンギラス", "ノココッチ", "ドロンチ", "ピジョットex", "シャンデラ"])

  // internal/handlers/sv10.go:863-875
  const Rule64 := Rule(
    AtLeast("ガチグマ アカツキ", 3),
    "ガチグマ アカツキ",
    ["ガチグマ アカツキ", "マラカッチ", "マシマシラ", "ラティアスex"])

  // internal/handlers/sv10.go:877-887
  const Rule65 := Rule(
    AtLeast("ヒードラン", 3),
    "ヒードラン",
    ["ヒードラン", "メタング"])

  // internal/handlers/sv10.go:889-898
  const Rule66 := Rule(
    AtLeast("ワナイダーex", 3),
    "ワナイダーex",
    ["ワナイダーex"])

  // internal/handlers/sv10.go:900-909
  const Rule67 := Rule(
    AtLeast("イルカマンex", 3),
    "イルカマンex",
    ["イルカマンex"])

  // internal/handlers/sv10.go:911-923
  const Rule68 := Rule(
    AtLeast("アマージョex", 2),
    "アマージョex",
    ["アマージョex", "ユキメノコ", "マシマシラ", "ピジョットex"])

  // internal/handlers/sv10.go:925-935
  const Rule69 := Rule(
    And(AtLeast("リーリエのピッピex", 3), AtLeast("リーリエのしんじゅ", 3)),
    "リーリエのピッピex",
    ["リーリエのピッピex", "リーリエのしんじゅ"])

  // internal/handlers/sv10.go:937-948
  const Rule70 := Rule(
    AtLeast("テツノイバラex", 3),
    "テツノイバラex",
    ["テツノイバラex", "クラッシュハンマー", "ポケモンキャッチャー"])

  // internal/handlers/sv10.go:950-960
  const Rule71 := Rule(
    AtLeast("ホエルオー", 3),
    "ホエルオー",
    ["ホエルオー", "セグレイブ"])

  // internal/handlers/sv10.go:962-973
  const Rule72 := Rule(
    AtLeast("イワパレス", 2),
    "イワパレス",
    ["イワパレス", "テツノイバラex", "オーガポン いしずえのめんex"])

  // internal/handlers/sv10.go:975-987
  const Rule73 := Rule(
    And(AtLeast("ミライドンex", 2), Exactly("バチュル", 0)),
    "ミライドンex",
    ["ミライドンex", "レアコイル", "テツノカイナex", "ピカチュウex"])

  // internal/handlers/sv10.go:989-1002
  const Rule74 := Rule(
    And(AtLeast("バチュル", 2), Or(Or(AtLeast("テツノカイナex", 1), AtLeast("ピカチュウex", 1)), AtLeast("テツノイサハex", 1))),
    "バチュルバレット",
    ["バチュル", "ミライドンex", "テツノカイナex", "ピカチュウex", "テツノイサハex"])

  // internal/handlers/sv10.go:1004-1020
  const Rule75 := Rule(
    And(And(Or(Or(AtLeast("オーガポン みどりのめんex", 1), AtLeast("オーガポン いどのめんex", 1)), AtLeast("オーガポン いしずえのめんex", 1)), Or(Or(Or(AtLeast("テラパゴスex", 1), AtLeast("ピカチュウex", 1)), AtLeast("テツノイサハex", 1)), AtLeast("リーリエのピッピex", 1))), AtLeast("ゼロの大空洞", 2)),
    "テラスタルバレット",
    ["オーガポン みどりのめんex", "オーガポン いどのめんex", "オーガポン いしずえのめんex", "テラパゴスex", "ピカチュウex", "テツノイサハex", "リーリエのピッピex", "ゼロの大空洞"])

  // internal/handlers/sv10.go:1022-1033
  const Rule76 := Rule(
    AtLeast("ホップのザシアンex", 2),
    "ホップのザシアンex",
    ["ホップのザシアンex", "ホップのカビゴン", "ホップのウッウ"])

  // internal/handlers/sv10.go:1035-1044
  const Rule77 := Rule(
    AtLeast("オリーヴァex", 2),
    "オリーヴァex",
    ["オリーヴァex"])

  // internal/handlers/sv10.go:1046-1057
  const Rule78 := Rule(
    AtLeast("ミロカロスex", 2),
    "ミロカロスex",
    ["ミロカロスex", "オンバーンex", "オーガポン いしずえのめんex"])

  // internal/handlers/sv10.go:1059-1070
  const Rule79 := Rule(
    AtLeast("リキキリンex", 2),
    "リキキリンex",
    ["リキキリンex", "オンバーンex", "オーガポン いしずえのめんex"])

  // internal/handlers/sv10.go:1072-1082
  const Rule80 := Rule(
    And(And(AtLeast("ユキメノコ", 2), AtLeast("マシマシラ", 3)), Exactly("マリィのオーロンゲex", 0)),
    "ユキメノコ & マシマシラ",
    ["ユキメノコ", "マシマシラ"])

  // internal/handlers/sv10.go:1084-1097
  const Rule81 := Rule(
    And(And(And(AtLeast("カットロトム", 1), AtLeast("ヒートロトム", 1)), AtLeast("ウォッシュロトム", 1)), AtLeast("ロトム", 1)),
    "ロトムバレット",
    ["カットロトム", "ヒートロトム", "ウォッシュロトム", "ロトム", "スピンロトム"])

  // internal/handlers/sv10.go:1099-1111
  const Rule82 := Rule(
    And(And(Or(AtLeast("カミッチュ", 3), AtLeast("アズマオウ", 3)), AtLeast("バチンキー", 3)), AtLeast("お祭り会場", 3)),
    "おまつりおんど",
    ["カミッチュ", "アズマオウ", "バチンキー", "お祭り会場"])

  // internal/handlers/sv10.go:1113-1126
  const Rule83 := Rule(
    And(And(AtLeast("ミライドン", 2), AtLeast("テツノカシラex", 2)), AtLeast("テクノレーダー", 2)),
    "未来バレット",
    ["ミライドン", "テツノカシラex", "テツノカイナex", "テツノブジンex", "テツノイサハex"])

  // internal/handlers/sv10.go:1128-1140
  const Rule84 := Rule(
    And(And(And(AtLeast("オンバーンex", 2), AtLeast("モモワロウ", 2)), AtLeast("アラブルタケ", 2)), AtLeast("危険な密林", 3)),
    "オンバーンex",
    ["オンバーンex", "モモワロウ", "アラブルタケ", "危険な密林"])

  // internal/handlers/sv10.go:1142-1159
  const Rule85 := Rule(
    And(And(AtLeast("おはやし笛", 2), AtLeast("クセロシキのたくらみ", 1)), AtLeast("ビワ", 1)),
    "コントロール",
    ["ロケット団のリーシャン", "ヒビキのウソッキー", "ミロカロス", "ゲノセクト", "イーユイex", "ディンルーex", "おはやし笛", "クセロシキのたくらみ", "ビワ"])

  // internal/handlers/sv10.go:1161-1175
  const Rule86 := Rule(
    AtLeast("シャリタツex", 2),
    "シャリタツex",
    ["シャリタツex", "リザードンex", "バシャーモex", "ゲッコウガex", "ドラパルトex", "ピジョットex"])
}
