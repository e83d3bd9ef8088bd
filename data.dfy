/**
 * Select mode's fixed content and decision table: six binary questions, and
 * a table from a five-letter category key (format, mood, world, tone, style)
 * to a pool of eight movies, four well known ones followed by four lesser
 * known ones. The second answer (popularity) picks the half of the pool.
 */
module Data {
  import opened Wrappers
  import opened Types
  import Shuffles

  // ------------------------------------------------------------ questions

  /** One side of a question card. */
  datatype Choice = Choice(caption: string, sub: string)

  datatype Question = Question(id: int, text: string, icon: string, left: Choice, right: Choice)

  const Questions: seq<Question> := [
    Question(1, "作品のフォーマットは？", "📺", Choice("アニメ", "Animation"), Choice("実写", "Live Action")),
    Question(2, "知名度は？", "💎", Choice("有名・王道", "Blockbuster"), Choice("隠れた名作", "Hidden/Cult")),
    Question(3, "今の気分は？", "🧠", Choice("熱狂・興奮", "High Energy"), Choice("没入・思索", "Deep Dive")),
    Question(4, "求める世界観は？", "🌐", Choice("非日常・SF", "Fiction"), Choice("現実・ドラマ", "Realism")),
    Question(5, "ストーリーの雰囲気は？", "⚖️", Choice("明るい・希望", "Bright"), Choice("シリアス・重厚", "Dark")),
    Question(6, "映像・演出の好みは？", "🎬", Choice("派手・エンタメ", "Pop / Action"), Choice("芸術・情緒", "Artistic"))
  ]

  /** There are six questions, numbered 1 to 6 in order. */
  lemma QuestionsShape()
    ensures |Questions| == 6
    ensures forall k :: 0 <= k < |Questions| ==> Questions[k].id == k + 1
  {
  }

  /** A table entry; table movies carry no catalog identifier. */
  function Item(title: string, desc: string, image: string, matchRate: int): ResultItem {
    ResultItem(title, desc, image, matchRate, None)
  }

  // ------------------------------------------------ placeholder images (IMG)

  const ImgAdventure: string := "https://images.unsplash.com/photo-1534447677768-be436bb09401?q=80&w=1600&auto=format&fit=crop"
  const ImgCyberpunk: string := "https://images.unsplash.com/photo-1555680202-c86f0e12f086?q=80&w=1600&auto=format&fit=crop"
  const ImgSummer: string := "https://images.unsplash.com/photo-1472214103451-9374bd1c798e?q=80&w=1600&auto=format&fit=crop"
  const ImgDream: string := "https://images.unsplash.com/photo-1451187580459-43490279c0fa?q=80&w=1600&auto=format&fit=crop"
  const ImgDark: string := "https://images.unsplash.com/photo-1535905557558-afc4877a26fc?q=80&w=1600&auto=format&fit=crop"
  const ImgChaos: string := "https://images.unsplash.com/photo-1509347528160-9a9e33742cd4?q=80&w=1600&auto=format&fit=crop"
  const ImgFire: string := "https://images.unsplash.com/photo-1493238792000-8113da705763?q=80&w=1600&auto=format&fit=crop"
  const ImgCityNight: string := "https://images.unsplash.com/photo-1480796927426-f609979314bd?q=80&w=1600&auto=format&fit=crop"
  const ImgSports: string := "https://images.unsplash.com/photo-1526676037777-05a232554f77?q=80&w=1600&auto=format&fit=crop"
  const ImgAction: string := "https://images.unsplash.com/photo-1558981403-c5f9899a28bc?q=80&w=1600&auto=format&fit=crop"
  const ImgWar: string := "https://images.unsplash.com/photo-1612152605332-94bc53e5e337?q=80&w=1600&auto=format&fit=crop"
  const ImgRural: string := "https://images.unsplash.com/photo-1464983953574-0892a716854b?q=80&w=1600&auto=format&fit=crop"
  const ImgFantasy: string := "https://images.unsplash.com/photo-1518709268805-4e9042af9f23?q=80&w=1600&auto=format&fit=crop"
  const ImgRain: string := "https://images.unsplash.com/photo-1515523110800-9415d13b84a8?q=80&w=1600&auto=format&fit=crop"
  const ImgCastle: string := "https://images.unsplash.com/photo-1524397057410-1e775ed476f3?q=80&w=1600&auto=format&fit=crop"
  const ImgSpace: string := "https://images.unsplash.com/photo-1446776811953-b23d57bd21aa?q=80&w=1600&auto=format&fit=crop"
  const ImgNature: string := "https://images.unsplash.com/photo-1542273917363-3b1817f69a2d?q=80&w=1600&auto=format&fit=crop"
  const ImgCyber: string := "https://images.unsplash.com/photo-1526374965328-7f61d4dc18c5?q=80&w=1600&auto=format&fit=crop"
  const ImgRed: string := "https://images.unsplash.com/photo-1480044965905-83275966c9ed?q=80&w=1600&auto=format&fit=crop"
  const ImgRoom: string := "https://images.unsplash.com/photo-1555596899-d6444781fa12?q=80&w=1600&auto=format&fit=crop"
  const ImgSakura: string := "https://images.unsplash.com/photo-1522383225653-ed111181a951?q=80&w=1600&auto=format&fit=crop"
  const ImgSchool: string := "https://images.unsplash.com/photo-1588072432836-e10032774350?q=80&w=1600&auto=format&fit=crop"
  const ImgBridge: string := "https://images.unsplash.com/photo-1437422061949-f6efbde0a471?q=80&w=1600&auto=format&fit=crop"
  const ImgStage: string := "https://images.unsplash.com/photo-1501386761578-eac5c94b800a?q=80&w=1600&auto=format&fit=crop"
  const ImgActress: string := "https://images.unsplash.com/photo-1485846234645-a62644f84728?q=80&w=1600&auto=format&fit=crop"
  const ImgHero: string := "https://images.unsplash.com/photo-1535446202401-778391090002?q=80&w=1600&auto=format&fit=crop"
  const ImgVr: string := "https://images.unsplash.com/photo-1624514134741-a3025dfc7296?q=80&w=1600&auto=format&fit=crop"
  const ImgPink: string := "https://images.unsplash.com/photo-1534528741775-53994a69daeb?q=80&w=1600&auto=format&fit=crop"
  const ImgDesert: string := "https://images.unsplash.com/photo-1509316975850-ff9c5deb0cd9?q=80&w=1600&auto=format&fit=crop"
  const ImgJoker: string := "https://images.unsplash.com/photo-1478720568477-152d9b164e63?q=80&w=1600&auto=format&fit=crop"
  const ImgDune: string := "https://images.unsplash.com/photo-1541675154750-0444c7d51e8e?q=80&w=1600&auto=format&fit=crop"
  const ImgNoir: string := "https://images.unsplash.com/photo-1565626424178-c699f660ba26?q=80&w=1600&auto=format&fit=crop"
  const ImgJet: string := "https://images.unsplash.com/photo-1559819614-81ea9e28de84?q=80&w=1600&auto=format&fit=crop"
  const ImgLa: string := "https://images.unsplash.com/photo-1533036814979-99a385202613?q=80&w=1600&auto=format&fit=crop"
  const ImgRock: string := "https://images.unsplash.com/photo-1459749411177-334811adbced?q=80&w=1600&auto=format&fit=crop"
  const ImgMoney: string := "https://images.unsplash.com/photo-1560252829-804f1a530379?q=80&w=1600&auto=format&fit=crop"
  const ImgDance: string := "https://images.unsplash.com/photo-1545959744-8d9982dc5645?q=80&w=1600&auto=format&fit=crop"
  const ImgFight: string := "https://images.unsplash.com/photo-1517466787929-bc90951d0974?q=80&w=1600&auto=format&fit=crop"
  const ImgDrum: string := "https://images.unsplash.com/photo-1519892300165-cb5542fb47c7?q=80&w=1600&auto=format&fit=crop"
  const ImgStairs: string := "https://images.unsplash.com/photo-1518063319789-7217e6706b04?q=80&w=1600&auto=format&fit=crop"
  const ImgClock: string := "https://images.unsplash.com/photo-1508962914676-134849a727f0?q=80&w=1600&auto=format&fit=crop"
  const ImgHotel: string := "https://images.unsplash.com/photo-1520250497591-112f2f40a3f4?q=80&w=1600&auto=format&fit=crop"
  const ImgWater: string := "https://images.unsplash.com/photo-1504198458649-3128b932f49e?q=80&w=1600&auto=format&fit=crop"
  const ImgBlackhole: string := "https://images.unsplash.com/photo-1462331940025-496dfbfc7564?q=80&w=1600&auto=format&fit=crop"
  const ImgMonolith: string := "https://images.unsplash.com/photo-1614730341194-75c6074065db?q=80&w=1600&auto=format&fit=crop"
  const ImgInk: string := "https://images.unsplash.com/photo-1562916124-6752763266d6?q=80&w=1600&auto=format&fit=crop"
  const ImgDreamCity: string := "https://images.unsplash.com/photo-1486406146926-c627a92ad1ab?q=80&w=1600&auto=format&fit=crop"
  const ImgFriends: string := "https://images.unsplash.com/photo-1529156069898-49953e39b3ac?q=80&w=1600&auto=format&fit=crop"
  const ImgBench: string := "https://images.unsplash.com/photo-1504194916966-3d7580795c47?q=80&w=1600&auto=format&fit=crop"
  const ImgTokyo: string := "https://images.unsplash.com/photo-1540959733332-eab4deabeeaf?q=80&w=1600&auto=format&fit=crop"
  const ImgPrison: string := "https://images.unsplash.com/photo-1508493183577-94c6536ae529?q=80&w=1600&auto=format&fit=crop"
  const ImgMafia: string := "https://images.unsplash.com/photo-1593508512255-86ab42a8e620?q=80&w=1600&auto=format&fit=crop"
  const ImgBasement: string := "https://images.unsplash.com/photo-1555502251-874288b2eb60?q=80&w=1600&auto=format&fit=crop"
  const ImgCar: string := "https://images.unsplash.com/photo-1492144534655-ae79c964c9d7?q=80&w=1600&auto=format&fit=crop"
  const ImgNeonNoir: string := "https://images.unsplash.com/photo-1585856407639-50970a00d41e?q=80&w=1600&auto=format&fit=crop"
  const ImgBus: string := "https://images.unsplash.com/photo-1544620347-c4fd4a3d5957?q=80&w=1600&auto=format&fit=crop"
  const ImgCave: string := "https://images.unsplash.com/photo-1506158669146-619067262a00?q=80&w=1600&auto=format&fit=crop"
  const ImgCyberWire: string := "https://images.unsplash.com/photo-1518770660439-4636190af475?q=80&w=1600&auto=format&fit=crop"
  const ImgJungle: string := "https://images.unsplash.com/photo-1564357718919-69f3d6c07a38?q=80&w=1600&auto=format&fit=crop"
  const ImgTv: string := "https://images.unsplash.com/photo-1593784991095-a20506948430?q=80&w=1600&auto=format&fit=crop"

  const PoolLLLLL: seq<ResultItem> := [
    Item("ONE PIECE FILM RED", "圧倒的な歌唱とライブ感。エンタメの極致。", ImgAdventure, 98),
    Item("ザ・スーパーマリオブラザーズ・ムービー", "世界中が熱狂したゲームの世界への没入体験。", ImgSummer, 97),
    Item("ドラゴンボール超 ブロリー", "作画崩壊寸前の超絶バトル。理屈抜きの興奮。", ImgFire, 99),
    Item("名探偵コナン 黒鉄の魚影", "シリーズ最高傑作の呼び声高い、海中サスペンス。", ImgAdventure, 96),
    Item("REDLINE", "手描きアニメの極北。7年かけた狂気のレース。", ImgCar, 95),
    Item("プロメア", "色彩の暴力と熱すぎる魂のぶつかり合い。", ImgCyberpunk, 94),
    Item("サマーウォーズ", "ネットと田舎の大家族が世界を救う夏の定番。", ImgSummer, 97),
    Item("グリッドマン ユニバース", "ヒーローと怪獣と青春。特撮愛に溢れた祝祭。", ImgHero, 93)
  ]

  const PoolLLLLR: seq<ResultItem> := [
    Item("スパイダーマン：スパイダーバース", "コミックがそのまま動く。映像革命的アート。", ImgCyber, 99),
    Item("すずめの戸締まり", "日本列島を巡る旅。圧倒的映像美のロードムービー。", ImgRural, 97),
    Item("竜とそばかすの姫", "ネット空間の歌姫。映像美と音楽の融合。", ImgSpace, 96),
    Item("天気の子", "美しい雨の描写と、世界を変える選択。", ImgRain, 95),
    Item("マインド・ゲーム", "湯浅政明初監督。脳内麻薬のような奔放な映像。", ImgChaos, 94),
    Item("海獣の子供", "圧倒的な水の描写と生命の神秘。視覚的トリップ体験。", ImgWater, 93),
    Item("夜は短し歩けよ乙女", "京都を舞台にした極彩色の恋の逃走劇。", ImgSakura, 94),
    Item("ペンギン・ハイウェイ", "少年の研究と不思議なペンギン。爽やかなSF。", ImgSummer, 92)
  ]

  const PoolLLLRL: seq<ResultItem> := [
    Item("劇場版 呪術廻戦 0", "愛と呪いの物語。スタイリッシュでダークなアクション。", ImgDark, 99),
    Item("鬼滅の刃 無限列車編", "心を燃やせ。日本中が涙した直球の感情ドラマ。", ImgFire, 98),
    Item("シン・エヴァンゲリオン劇場版", "伝説の完結。全てのアニメファンへの回答。", ImgCyber, 99),
    Item("チェンソーマン (TV/Select)", "混沌と狂気。バイオレンスな魅力に溢れたダークヒーロー。", ImgChaos, 96),
    Item("GANTZ:O", "大阪での妖怪サバイバル。驚異的な3DCGアクション。", ImgCityNight, 94),
    Item("ストレンヂア 無皇刃譚", "邦画アクション最高峰。骨太なチャンバラ活劇。", ImgFight, 95),
    Item("獣兵衛忍風帖", "川尻善昭の傑作。エログロバイオレンスの忍者活劇。", ImgNoir, 93),
    Item("虐殺器官", "言葉で世界を虐殺する。近未来の軍事サスペンス。", ImgWar, 92)
  ]

  const PoolLLLRR: seq<ResultItem> := [
    Item("AKIRA", "ネオ東京の崩壊と再生。世界を震撼させたSFアニメの金字塔。", ImgCyberpunk, 99),
    Item("GHOST IN THE SHELL / 攻殻機動隊", "ネットの海とゴースト。哲学的問いを投げかける映像詩。", ImgCyber, 98),
    Item("新世紀エヴァンゲリオン劇場版 Air/まごころを、君に", "理解を超えた映像体験と精神世界へのダイブ。", ImgRed, 97),
    Item("風の谷のナウシカ", "腐海と共に生きる少女。文明と自然の対立。", ImgNature, 99),
    Item("天使のたまご", "押井守×天野喜孝。台詞極少の難解で美しい芸術作品。", ImgNoir, 95),
    Item("MEMORIES", "大友克洋総指揮。３つの異なる悪夢と幻想のオムニバス。", ImgSpace, 94),
    Item("パプリカ", "夢と現実が混ざり合うサイケデリックパレード。", ImgDream, 96),
    Item("人狼 JIN-ROH", "架空の昭和史。赤い眼鏡の特殊部隊と悲恋のハードボイルド。", ImgNoir, 93)
  ]

  const PoolLLRLL: seq<ResultItem> := [
    Item("THE FIRST SLAM DUNK", "伝説の試合が蘇る。CGと手描きの融合によるリアリティ。", ImgSports, 99),
    Item("ハイキュー!! ゴミ捨て場の決戦", "青春と汗とバレーボール。臨場感あふれる試合描写。", ImgSports, 98),
    Item("映画 けいおん！", "ロンドンへの卒業旅行。ゆるふわな日常と部活の終わり。", ImgFriends, 95),
    Item("バケモノの子", "渋谷の裏側の異世界。師弟の絆と成長のアクション。", ImgFight, 96),
    Item("ブルーサーマル", "空を飛ぶ部活「航空部」。爽快な飛行体験。", ImgNature, 93),
    Item("音楽 (2020)", "不良たちが思いつきでバンドを組む。ロトスコープの衝動。", ImgRock, 95),
    Item("宇宙ショーへようこそ", "田舎の小学生が宇宙へ。圧倒的な書き込みと冒険。", ImgSpace, 94),
    Item("アイの歌声を聴かせて", "AIと高校生のミュージカル青春群像劇。", ImgSchool, 94)
  ]

  const PoolLLRLR: seq<ResultItem> := [
    Item("BLUE GIANT", "ジャズに全てを懸ける青春。音が聞こえてくるような熱量。", ImgDrum, 97),
    Item("聲の形", "コミュニケーションの難しさと贖罪。痛みを伴う希望の物語。", ImgBridge, 96),
    Item("犬王", "室町時代のロックオペラ。湯浅政明監督による狂騒のミュージカル。", ImgStage, 95),
    Item("きみと、波にのれたら", "サーファーと消防士。水と愛のファンタジーロマンス。", ImgSummer, 94),
    Item("リズと青い鳥", "繊細すぎる少女たちの心情。言葉にできない感情の映像化。", ImgSchool, 96),
    Item("夜明け告げるルーのうた", "閉塞感ある漁港と人魚。疾走感あふれるアニメーション。", ImgWater, 93),
    Item("サイダーのように言葉が湧き上がる", "俳句とレコード。ポップでカラフルなひと夏のボーイミーツガール。", ImgSummer, 94),
    Item("映画大好きポンポさん", "映画創りへの狂気と愛。クリエイター賛歌。", ImgActress, 95)
  ]

  const PoolLLRRL: seq<ResultItem> := [
    Item("東京リベンジャーズ", "タイムリープ×不良。運命を変えるために戦うリベンジ。", ImgFight, 96),
    Item("名探偵コナン ベイカー街の亡霊", "ロンドンの霧と人工知能。シリーズ屈指のダークな傑作。", ImgNoir, 97),
    Item("BLACK LAGOON", "東南アジアのクライムアクション。硝煙と悪徳の香り。", ImgNoir, 95),
    Item("ルパン三世 カリオストロの城", "宮崎駿初監督作。冒険活劇の金字塔だが実はハードボイルド。", ImgCastle, 98),
    Item("ジョーカー・ゲーム", "戦時下のスパイ・ミステリー。スタイリッシュな頭脳戦。", ImgNoir, 94),
    Item("ゴールデンカムイ", "北海道での金塊争奪戦。変態とアクションとグルメの闇鍋。", ImgRural, 96),
    Item("スプリガン", "超古代文明の遺産を守る。90年代アクションの最高峰。", ImgAction, 93),
    Item("LUPIN THE IIIRD 次元大介の墓標", "ハードでアダルトなルパン。シビアなガンアクション。", ImgNoir, 95)
  ]

  const PoolLLRRR: seq<ResultItem> := [
    Item("機動戦士ガンダム 閃光のハサウェイ", "大人のガンダム。リアリティのある市街戦と苦悩。", ImgCyber, 97),
    Item("スカイ・クロラ The Sky Crawlers", "永遠の子供たちが戦う空。押井守監督の静謐な戦闘。", ImgJet, 94),
    Item("機動警察パトレイバー2 the Movie", "東京に「戦争」という状況を作り出す。重厚な政治劇。", ImgCityNight, 98),
    Item("この世界の片隅に", "戦時下の日常。柔らかな絵柄の中に宿る強烈なリアリティ。", ImgRural, 99),
    Item("PERFECT BLUE", "アイドルの虚像と実像。現実と幻覚が入り混じるサイコホラー。", ImgRoom, 96),
    Item("残響のテロル", "東京を爆破する少年たち。切ない音楽と破壊の美学。", ImgCityNight, 94),
    Item("ハーモニー", "優しさに殺される世界。伊藤計劃原作の管理社会ディストピア。", ImgRoom, 93),
    Item("オネアミスの翼 王立宇宙軍", "架空の世界の宇宙開発史。圧倒的なディテール。", ImgSpace, 95)
  ]

  const PoolRLLLL: seq<ResultItem> := [
    Item("アベンジャーズ/エンドゲーム", "10年の集大成。ヒーロー映画の頂点。", ImgHero, 99),
    Item("バック・トゥ・ザ・フューチャー", "タイムトラベルの傑作。伏線回収の教科書。", ImgClock, 99),
    Item("ジュラシック・パーク", "恐竜の脅威と生命の驚異。映画マジックの原点。", ImgNature, 98),
    Item("ガーディアンズ・オブ・ギャラクシー", "宇宙の落ちこぼれと70年代ヒット曲。最高にハッピー。", ImgSpace, 97),
    Item("ギャラクシー・クエスト", "SFドラマの出演者が本物の宇宙戦争へ。愛すべきパロディ。", ImgSpace, 95),
    Item("スコット・ピルグリム VS. 邪悪な元カレ軍団", "ゲーム演出×青春ラブコメ。視覚的快感。", ImgFight, 94),
    Item("アタック・ザ・ブロック", "団地の不良vsエイリアン。低予算だが熱いSF。", ImgCityNight, 93),
    Item("ラブ＆モンスターズ", "終末世界で彼女に会いに行く。意外とハートフルな怪獣映画。", ImgNature, 92)
  ]

  const PoolRLLLR: seq<ResultItem> := [
    Item("アバター：ウェイ・オブ・ウォーター", "異次元の映像美。海の世界への完全な没入。", ImgWater, 98),
    Item("ラ・ラ・ランド", "夢と魔法のミュージカル。鮮やかな色彩とほろ苦い結末。", ImgLa, 96),
    Item("バービー", "ピンクの世界と実存的危機。鮮烈なビジュアルと社会風刺。", ImgPink, 96),
    Item("チャーリーとチョコレート工場", "ティム・バートンの極彩色で奇妙な世界。", ImgFantasy, 95),
    Item("エブリシング・エブリウェア・オール・アット・ワンス", "マルチバースと家族愛。カオスで哲学的な映像体験。", ImgChaos, 97),
    Item("グランド・ブダペスト・ホテル", "ウェス・アンダーソンの美的センスが爆発したミステリー。", ImgHotel, 96),
    Item("アメリ", "パリの不思議な女の子。赤と緑の独特な色彩設計。", ImgRoom, 95),
    Item("ライフ・オブ・パイ", "漂流した少年とトラ。圧倒的に美しい映像哲学。", ImgWater, 94)
  ]

  const PoolRLLRL: seq<ResultItem> := [
    Item("ダークナイト", "正義と悪の境界線。ジョーカーの圧倒的存在感。", ImgJoker, 99),
    Item("マトリックス", "世界は仮想現実。映像革命を起こしたSFアクション。", ImgCyber, 98),
    Item("マッドマックス 怒りのデス・ロード", "行って帰ってくるだけの傑作。純粋なアクションの結晶。", ImgDesert, 98),
    Item("デューン 砂の惑星 PART2", "救世主の覚醒と戦争。圧倒的なスケールの映像体験。", ImgDune, 97),
    Item("ジャッジ・ドレッド (2012)", "高層ビルでの処刑アクション。ハードでスタイリッシュ。", ImgCyberpunk, 94),
    Item("アップグレード", "AIを埋め込まれた男の復讐。カメラワークが斬新。", ImgCyber, 95),
    Item("第9地区", "エイリアン差別と変身。ドキュメンタリータッチのSF。", ImgRural, 96),
    Item("スターシップ・トゥルーパーズ", "昆虫型宇宙生物との戦争。痛烈なプロパガンダ風刺。", ImgWar, 93)
  ]

  const PoolRLLRR: seq<ResultItem> := [
    Item("インセプション", "夢の中へ潜入。重力が歪む圧倒的な映像表現。", ImgDreamCity, 98),
    Item("ブレードランナー 2049", "美しくも孤独な未来。圧倒的な撮影美とVFX。", ImgNeonNoir, 97),
    Item("2001年宇宙の旅", "人類の進化とモノリス。説明を排した究極の映像体験。", ImgMonolith, 96),
    Item("メッセージ", "異星人の言語解読。時間と愛の概念を覆すSF。", ImgInk, 95),
    Item("エクス・マキナ", "美しいAIとの密室劇。静かで冷徹なスリラー。", ImgRoom, 94),
    Item("アンダー・ザ・スキン 種の捕食", "異星人の視点。スコットランドの寒々しい風景と不条理。", ImgNoir, 92),
    Item("アナイアレイション -全滅領域-", "変容する生態系。美しくも恐ろしいSFホラー。", ImgJungle, 93),
    Item("ロスト・チルドレン", "夢を盗む科学者。ジュネ＆キャロの奇妙な世界観。", ImgDream, 94)
  ]

  const PoolRLRLL: seq<ResultItem> := [
    Item("トップガン マーヴェリック", "本物の戦闘機アクション。王道の感動と興奮。", ImgJet, 99),
    Item("ミッション：インポッシブル/フォールアウト", "トム・クルーズの命がけスタント。最高峰のアクション。", ImgAction, 98),
    Item("オーシャンズ11", "豪華キャストの犯罪ドリームチーム。お洒落で痛快。", ImgHotel, 96),
    Item("RRR", "友情！熱血！ダンス！インド映画のパワー全開。", ImgDance, 98),
    Item("ベイビー・ドライバー", "音楽とカーチェイスの完璧な同期。リズムに乗る快感。", ImgCar, 96),
    Item("キングスマン", "英国紳士のスパイアクション。過激でポップな暴力。", ImgAction, 95),
    Item("ナイスガイズ！", "70年代の凸凹探偵コンビ。小気味良い会話とアクション。", ImgLa, 94),
    Item("ブレット・トレイン", "伊坂幸太郎原作。新幹線での殺し屋バトロワ。", ImgTokyo, 93)
  ]

  const PoolRLRLR: seq<ResultItem> := [
    Item("ボヘミアン・ラプソディ", "クイーンの栄光と孤独。魂を揺さぶるライブシーン。", ImgRock, 98),
    Item("エルヴィス", "キング・オブ・ロックンロール。バズ・ラーマンの煌びやかな演出。", ImgStage, 96),
    Item("グレイテスト・ショーマン", "サーカスと差別。圧倒的な楽曲とパフォーマンス。", ImgStage, 97),
    Item("ロケットマン", "エルトン・ジョンの半生。ファンタジックなミュージカル。", ImgStage, 95),
    Item("シング・ストリート 未来へのうた", "80年代ダブリン。バンド結成と初恋の甘酸っぱさ。", ImgRock, 96),
    Item("はじまりのうた", "NYの街角録音。音楽がつなぐ再生の物語。", ImgCityNight, 95),
    Item("チック、チック...ブーン！", "「レント」作者の苦悩。アンドリュー・ガーフィールドの熱演。", ImgRoom, 94),
    Item("イエスタデイ", "ビートルズが存在しない世界。名曲へのラブレター。", ImgRock, 93)
  ]

  const PoolRLRRL: seq<ResultItem> := [
    Item("ジョーカー", "悪の誕生。社会から疎外された男の狂気。", ImgStairs, 98),
    Item("ファイト・クラブ", "消費社会へのアンチテーゼ。衝撃のラストと暴力。", ImgFight, 97),
    Item("パルプ・フィクション", "タランティーノの傑作。時間軸が交錯する会話劇。", ImgCar, 98),
    Item("ウルフ・オブ・ウォールストリート", "金と欲望の狂乱。ディカプリオの怪演。", ImgMoney, 96),
    Item("ナイトクローラー", "報道の闇。スクープに取り憑かれた男の狂気。", ImgCar, 95),
    Item("アンカット・ダイヤモンド", "借金と宝石。息つく暇もない焦燥感。", ImgMoney, 94),
    Item("ドライヴ", "寡黙なドライバー。スタイリッシュな映像とバイオレンス。", ImgCar, 96),
    Item("グッド・タイム", "最底辺の兄弟愛。ネオン輝くNYでの逃走劇。", ImgNeonNoir, 93)
  ]

  const PoolRLRRR: seq<ResultItem> := [
    Item("オッペンハイマー", "原爆の父の栄光と没落。クリストファー・ノーランの心理劇。", ImgFire, 98),
    Item("1917 命をかけた伝令", "全編ワンカット風の戦争体験。没入感が凄まじい。", ImgWar, 97),
    Item("プライベート・ライアン", "冒頭のオマハ・ビーチ上陸。戦争映画の金字塔。", ImgWar, 98),
    Item("地獄の黙示録", "狂気のカーツ大佐。ベトナムの奥地への悪夢の旅。", ImgJungle, 96),
    Item("セッション", "狂気のリズム。完璧を求める師弟の壮絶なドラムバトル。", ImgDrum, 97),
    Item("ハート・ロッカー", "爆発物処理班の日常。戦争中毒という病。", ImgDesert, 95),
    Item("ボーダーライン", "メキシコ麻薬戦争の闇。善悪の彼岸。", ImgDesert, 96),
    Item("トゥモロー・ワールド", "子供が生まれなくなった未来。長回しの戦闘シーン。", ImgWar, 94)
  ]

  const PoolRRLLL: seq<ResultItem> := [
    Item("フォレスト・ガンプ", "激動のアメリカ史を駆け抜けた純粋な男の物語。", ImgBench, 99),
    Item("トゥルーマン・ショー", "人生が全てTV番組だった男。自由への脱出。", ImgTv, 98),
    Item("ビッグ・フィッシュ", "父の語るホラ話。ファンタジーと父子の和解。", ImgFantasy, 97),
    Item("アバウト・タイム", "タイムトラベルと日常。今日という日を大切にする物語。", ImgClock, 98),
    Item("ミッドナイト・イン・パリ", "憧れの20年代パリへ。芸術家たちとの夢の邂逅。", ImgCityNight, 96),
    Item("LIFE! / ライフ", "地味な男の壮大な旅。一歩踏み出す勇気。", ImgNature, 95),
    Item("パディントン2", "世界一礼儀正しいクマ。刑務所すら変える優しさ。", ImgPrison, 97),
    Item("もしも昨日が選べたら", "人生を早送りできるリモコン。家族の大切さ。", ImgClock, 93)
  ]

  const PoolRRLLR: seq<ResultItem> := [
    Item("シェイプ・オブ・ウォーター", "半魚人と清掃員の愛。ダークで美しい大人の寓話。", ImgWater, 97),
    Item("エターナル・サンシャイン", "記憶除去手術。忘れたくない恋の記憶。", ImgDream, 98),
    Item("シザーハンズ", "ハサミの手を持つ人造人間。ティム・バートンの切ないお伽話。", ImgCastle, 96),
    Item("her/世界でひとつの彼女", "AIとの恋。近未来の孤独と愛の形。", ImgRoom, 95),
    Item("ムーンライズ・キングダム", "少年少女の駆け落ち。ウェス・アンダーソンの箱庭。", ImgNature, 95),
    Item("うたかたの日々", "肺に睡蓮が咲く病気。ミシェル・ゴンドリーの映像魔術。", ImgRoom, 93),
    Item("ロブスター", "独身者は動物に変えられる。シュールなディストピア。", ImgHotel, 92),
    Item("ビッグ・アイズ", "大きな目の少女の絵。ゴーストペインターの実話。", ImgRoom, 93)
  ]

  const PoolRRLRL: seq<ResultItem> := [
    Item("シックス・センス", "死者が見える少年。映画史に残るどんでん返し。", ImgDark, 98),
    Item("クワイエット・プレイス", "音を立てたら即死。沈黙のサバイバル。", ImgRural, 96),
    Item("アイ・アム・レジェンド", "人類絶滅後のNY。孤独な男の戦い。", ImgCityNight, 95),
    Item("セブン", "七つの大罪になぞらえた殺人。雨と絶望のサスペンス。", ImgNoir, 97),
    Item("ミスト", "霧の中の怪物。後味の悪さで有名な衝撃のラスト。", ImgNature, 94),
    Item("10 クローバーフィールド・レーン", "シェルターでの密室劇。疑心暗鬼のスリラー。", ImgBasement, 93),
    Item("ザ・メニュー", "孤島の高級レストラン。狂気のフルコース。", ImgHotel, 92),
    Item("バタフライ・エフェクト", "過去改変の代償。切ないラストが人気。", ImgClock, 95)
  ]

  const PoolRRLRR: seq<ResultItem> := [
    Item("ブラック・スワン", "バレエの狂気。完璧を追い求めた果ての破滅。", ImgStage, 96),
    Item("パラサイト 半地下の家族", "格差社会の喜劇と悲劇。予測不能な展開。", ImgBasement, 99),
    Item("時計じかけのオレンジ", "超暴力とベートーヴェン。キューブリックの美的悪夢。", ImgRoom, 95),
    Item("ミッドサマー", "白夜のカルト村。明るいのに恐ろしい祝祭。", ImgRural, 96),
    Item("ドニー・ダーコ", "ウサギの幻覚と世界の終わり。カルト青春映画。", ImgDark, 94),
    Item("ライトハウス", "孤島の灯台守。モノクロ映像と狂気。", ImgNoir, 93),
    Item("ウィッチ", "17世紀の魔女狩り。不穏な空気と家族の崩壊。", ImgRural, 92),
    Item("マルホランド・ドライブ", "夢と現実の崩壊。デヴィッド・リンチの難解な迷宮。", ImgLa, 94)
  ]

  const PoolRRRLL: seq<ResultItem> := [
    Item("最強のふたり", "富豪とスラムの青年。正反対の二人の友情。", ImgFriends, 99),
    Item("グリーンブック", "黒人ピアニストとイタリア系運転手。差別の南才への旅。", ImgCar, 98),
    Item("グッド・ウィル・ハンティング", "天才青年と心理学者。旅立ちの物語。", ImgBench, 98),
    Item("ニュー・シネマ・パラダイス", "映画館と映写技師。映画愛に溢れたラスト。", ImgRoom, 99),
    Item("コーダ あいのうた", "ろうあの家族と歌う少女。温かい涙と感動。", ImgStage, 96),
    Item("ワンダー 君は太陽", "顔に障害を持つ少年。家族と学校の優しさ。", ImgSchool, 97),
    Item("マイ・インターン", "70歳のインターンと女社長。世代を超えた友情。", ImgRoom, 95),
    Item("リトル・ミス・サンシャイン", "崩壊寸前の家族のロードムービー。負け犬たちの輝き。", ImgCar, 96)
  ]

  const PoolRRRLR: seq<ResultItem> := [
    Item("君の名前で僕を呼んで", "ひと夏の恋。イタリアの美しい風景と初恋の痛み。", ImgSummer, 96),
    Item("ロスト・イン・トランスレーション", "東京での孤独と出会い。ソフィア・コッポラの空気感。", ImgTokyo, 95),
    Item("PERFECT DAYS", "公衆トイレ清掃員の日常。役所広司の圧倒的存在感。", ImgTokyo, 97),
    Item("ノマドランド", "車上生活者の旅。ドキュメンタリーのようなリアリティ。", ImgDesert, 96),
    Item("パターソン", "バス運転手の詩的な日常。何気ない毎日の美しさ。", ImgBus, 95),
    Item("aftersun/アフターサン", "父と娘の最後のバカンス。記憶の断片。", ImgSummer, 94),
    Item("カモン カモン", "モノクロのNY。ラジオジャーナリストと甥っ子の旅。", ImgCityNight, 93),
    Item("ミナリ", "アメリカに移住した韓国系家族。力強く生きる祖母。", ImgRural, 92)
  ]

  const PoolRRRRL: seq<ResultItem> := [
    Item("ショーシャンクの空に", "不条理な監獄と希望。友情と奇跡の物語。", ImgPrison, 99),
    Item("シンドラーのリスト", "ホロコーストと一人の男。スピルバーグの渾身作。", ImgNoir, 99),
    Item("ソーシャル・ネットワーク", "Facebook創設の裏側。早口な会話劇と孤独。", ImgRoom, 96),
    Item("イミテーション・ゲーム", "エニグマ解読。天才数学者の栄光と悲劇。", ImgCyber, 97),
    Item("スポットライト 世紀のスクープ", "カトリック教会のスキャンダルを追う記者たち。", ImgRoom, 96),
    Item("マネーボール", "統計学で野球を変える。逆転のスポーツビジネス。", ImgSports, 95),
    Item("プリズナーズ", "娘を誘拐された父の暴走。極限状態の倫理。", ImgPrison, 94),
    Item("ゾディアック", "迷宮入りした連続殺人。未解決事件の不気味さ。", ImgNoir, 95)
  ]

  const PoolRRRRR: seq<ResultItem> := [
    Item("ゴッドファーザー", "マフィアのファミリー。映画史に輝く叙事詩。", ImgMafia, 99),
    Item("タクシードライバー", "孤独な男の暴走。スコセッシ×デ・ニーロ。", ImgNoir, 97),
    Item("ノーカントリー", "純粋な悪との遭遇。コーエン兄弟の乾いた暴力。", ImgDesert, 96),
    Item("ゼア・ウィル・ビー・ブラッド", "石油王の欲望と孤独。圧倒的な演技合戦。", ImgDesert, 95),
    Item("ROMA/ローマ", "70年代メキシコの家政婦。キュアロンの自伝的傑作。", ImgRural, 96),
    Item("ザ・マスター", "新興宗教の教祖と元兵士。魂の彷徨。", ImgWater, 94),
    Item("燃ゆる女の肖像", "18世紀の女性画家とモデル。静謐で激しい愛。", ImgRoom, 95),
    Item("A GHOST STORY ア・ゴースト・ストーリー", "死んで幽霊になった男。永遠の時間を漂う。", ImgRoom, 93)
  ]

  /** The keys of the table in declaration order (the order `Object.values` follows). */
  const PoolKeys: seq<string> := ["LLLLL", "LLLLR", "LLLRL", "LLLRR", "LLRLL", "LLRLR", "LLRRL", "LLRRR", "RLLLL", "RLLLR", "RLLRL", "RLLRR", "RLRLL", "RLRLR", "RLRRL", "RLRRR", "RRLLL", "RRLLR", "RRLRL", "RRLRR", "RRRLL", "RRRLR", "RRRRL", "RRRRR"]

  /** The decision table: a five-letter category key to its pool of eight movies. */
  const ResultsData: map<string, seq<ResultItem>> := map[
    "LLLLL" := PoolLLLLL,
    "LLLLR" := PoolLLLLR,
    "LLLRL" := PoolLLLRL,
    "LLLRR" := PoolLLLRR,
    "LLRLL" := PoolLLRLL,
    "LLRLR" := PoolLLRLR,
    "LLRRL" := PoolLLRRL,
    "LLRRR" := PoolLLRRR,
    "RLLLL" := PoolRLLLL,
    "RLLLR" := PoolRLLLR,
    "RLLRL" := PoolRLLRL,
    "RLLRR" := PoolRLLRR,
    "RLRLL" := PoolRLRLL,
    "RLRLR" := PoolRLRLR,
    "RLRRL" := PoolRLRRL,
    "RLRRR" := PoolRLRRR,
    "RRLLL" := PoolRRLLL,
    "RRLLR" := PoolRRLLR,
    "RRLRL" := PoolRRLRL,
    "RRLRR" := PoolRRLRR,
    "RRRLL" := PoolRRRLL,
    "RRRLR" := PoolRRRLR,
    "RRRRL" := PoolRRRRL,
    "RRRRR" := PoolRRRRR
  ]

  /** The table's pools in declaration order, the values `Object.values` lists. */
  const Pools: seq<seq<ResultItem>> := [
    PoolLLLLL,
    PoolLLLLR,
    PoolLLLRL,
    PoolLLLRR,
    PoolLLRLL,
    PoolLLRLR,
    PoolLLRRL,
    PoolLLRRR,
    PoolRLLLL,
    PoolRLLLR,
    PoolRLLRL,
    PoolRLLRR,
    PoolRLRLL,
    PoolRLRLR,
    PoolRLRRL,
    PoolRLRRR,
    PoolRRLLL,
    PoolRRLLR,
    PoolRRLRL,
    PoolRRLRR,
    PoolRRRLL,
    PoolRRRLR,
    PoolRRRRL,
    PoolRRRRR
  ]

  // ---------------------------------------------------------- table shape

  /** Every pool of the table holds exactly eight movies. */
  lemma PoolsHaveEightMovies()
    ensures forall k :: k in ResultsData ==> |ResultsData[k]| == 8
  {
  }

  /** The list `Object.values` flattens holds, key by key, the pools the table looks up. */
  lemma PoolsAreTableValues()
    ensures |Pools| == |PoolKeys|
    ensures forall k :: 0 <= k < |PoolKeys| ==> Pools[k] == ResultsData[PoolKeys[k]]
  {
    forall k | 0 <= k < |PoolKeys| ensures Pools[k] == ResultsData[PoolKeys[k]] {
      if k < 12 { PoolIsTableValueLow(k); } else { PoolIsTableValueHigh(k); }
    }
  }

  lemma PoolIsTableValueLow(k: nat)
    requires k < 12
    ensures Pools[k] == ResultsData[PoolKeys[k]]
  {
  }

  lemma PoolIsTableValueHigh(k: nat)
    requires 12 <= k < 24
    ensures Pools[k] == ResultsData[PoolKeys[k]]
  {
  }

  /** The table's keys are exactly the listed keys. */
  lemma TableKeysListed()
    ensures forall k :: k in ResultsData <==> k in PoolKeys
  {
  }

  /** Whether `k` is five letters, each 'L' or 'R'. */
  predicate IsAnswerKey(k: string) {
    |k| == 5 && forall i :: 0 <= i < 5 ==> k[i] == 'L' || k[i] == 'R'
  }

  /** Every five-letter answer key that does not start with "LR" is listed. */
  lemma {:induction false} ListedKeysShape(k: string)
    requires IsAnswerKey(k) && k[..2] != "LR"
    ensures k in PoolKeys
  {
    assert k == [k[0], k[1], k[2], k[3], k[4]];
    assert k[..2] == [k[0], k[1]];
    if k[0] == 'L' {
      if k[2] == 'L' {
        if k[3] == 'L' {
          if k[4] == 'L' {
            assert k == "LLLLL";
          } else {
            assert k == "LLLLR";
          }
        } else {
          if k[4] == 'L' {
            assert k == "LLLRL";
          } else {
            assert k == "LLLRR";
          }
        }
      } else {
        if k[3] == 'L' {
          if k[4] == 'L' {
            assert k == "LLRLL";
          } else {
            assert k == "LLRLR";
          }
        } else {
          if k[4] == 'L' {
            assert k == "LLRRL";
          } else {
            assert k == "LLRRR";
          }
        }
      }
    } else {
      if k[1] == 'L' {
        if k[2] == 'L' {
          if k[3] == 'L' {
            if k[4] == 'L' {
              assert k == "RLLLL";
            } else {
              assert k == "RLLLR";
            }
          } else {
            if k[4] == 'L' {
              assert k == "RLLRL";
            } else {
              assert k == "RLLRR";
            }
          }
        } else {
          if k[3] == 'L' {
            if k[4] == 'L' {
              assert k == "RLRLL";
            } else {
              assert k == "RLRLR";
            }
          } else {
            if k[4] == 'L' {
              assert k == "RLRRL";
            } else {
              assert k == "RLRRR";
            }
          }
        }
      } else {
        if k[2] == 'L' {
          if k[3] == 'L' {
            if k[4] == 'L' {
              assert k == "RRLLL";
            } else {
              assert k == "RRLLR";
            }
          } else {
            if k[4] == 'L' {
              assert k == "RRLRL";
            } else {
              assert k == "RRLRR";
            }
          }
        } else {
          if k[3] == 'L' {
            if k[4] == 'L' {
              assert k == "RRRLL";
            } else {
              assert k == "RRRLR";
            }
          } else {
            if k[4] == 'L' {
              assert k == "RRRRL";
            } else {
              assert k == "RRRRR";
            }
          }
        }
      }
    }
  }

  /** The table has no category for anime (first letter 'L') with the "Deep Dive" mood (second letter 'R'). */
  lemma NoAnimeDeepDiveCategory(k: string)
    requires |k| >= 2 && k[0] == 'L' && k[1] == 'R'
    ensures k !in ResultsData
  {
    TableKeysListed();
    ListedKeysNotAnimeDeepDive();
  }

  /** No listed key starts with "LR". */
  lemma ListedKeysNotAnimeDeepDive()
    ensures forall key :: key in PoolKeys ==> |key| == 5 && (key[0] == 'R' || key[1] == 'L')
  {
  }

  // ------------------------------------------------------------ getResult

  /**
   * The key looked up for an answer path: its first letter followed by
   * everything after the second letter. As in JavaScript, the first letter
   * of an empty path reads as the text "undefined".
   */
  function LookupKey(path: string): string {
    (if |path| == 0 then "undefined" else [path[0]]) + (if |path| >= 2 then path[2..] else "")
  }

  /** The pool for a path: its category's pool, or the "LLLLL" pool when the table has no such category. */
  function PoolFor(path: string): (pool: seq<ResultItem>)
    ensures |pool| == 8
  {
    PoolsHaveEightMovies();
    if LookupKey(path) in ResultsData then ResultsData[LookupKey(path)] else ResultsData["LLLLL"]
  }

  /** Whether the popularity answer (second letter) asks for the well-known half. */
  predicate IsMajor(path: string) {
    |path| >= 2 && path[1] == 'L'
  }

  /** JavaScript's `slice(start, end)` for 0 <= start <= end: out-of-range ends are clamped. */
  function Slice<T>(s: seq<T>, start: nat, end: nat): (r: seq<T>)
    requires start <= end
    ensures end <= |s| ==> r == s[start..end]
  {
    var hi := if end <= |s| then end else |s|;
    var lo := if start <= hi then start else hi;
    s[lo..hi]
  }

  /** The movies a path draws from: the chosen half of its pool, or the whole pool if that half is empty. */
  function FinalPool(path: string): (pool: seq<ResultItem>)
    ensures |pool| == 4
    ensures IsMajor(path) ==> pool == PoolFor(path)[..4]
    ensures !IsMajor(path) ==> pool == PoolFor(path)[4..]
  {
    var all := PoolFor(path);
    var start := if IsMajor(path) then 0 else 4;
    var end := if IsMajor(path) then 4 else 8;
    var subset := Slice(all, start, end);
    if |subset| > 0 then subset else all
  }

  /**
   * The movie shown for a finished answer path; `r` is the injected random
   * draw, reduced into the pool's range.
   */
  function GetResult(path: string, r: nat): (movie: ResultItem)
    ensures IsMajor(path) ==> movie == PoolFor(path)[r % 4]
    ensures !IsMajor(path) ==> movie == PoolFor(path)[4 + r % 4]
  {
    var pool := FinalPool(path);
    pool[r % |pool|]
  }

  /** Every movie of the chosen half can be drawn. */
  lemma EveryPoolMovieReachable(path: string, k: nat)
    requires k < 4
    ensures GetResult(path, k) == FinalPool(path)[k]
  {
    var pool := FinalPool(path);
    assert |pool| == 4 && k % |pool| == k;
  }

  /** The popularity letter never changes the pool, only which half of it is used. */
  lemma PopularityOnlyPicksHalf(p: string, q: string)
    requires |p| >= 2 && |q| >= 2 && p[0] == q[0] && p[2..] == q[2..]
    ensures PoolFor(p) == PoolFor(q)
  {
    assert LookupKey(p) == LookupKey(q);
  }

  /**
   * The table has no "LR" category: every anime path whose mood answer is
   * "Deep Dive" draws from the "LLLLL" pool (anime, high energy, fiction,
   * bright, pop).
   */
  lemma AnimeDeepDiveFallsBack(path: string)
    requires |path| >= 3 && path[0] == 'L' && path[2] == 'R'
    ensures LookupKey(path) !in ResultsData
    ensures PoolFor(path) == PoolLLLLL
  {
    var key := LookupKey(path);
    assert key[0] == 'L' && key[1] == 'R';
    NoAnimeDeepDiveCategory(key);
  }

  /** For a full six-answer path, the table has its category exactly when it is not an anime "Deep Dive" path. */
  lemma {:induction false} SixAnswerPathsFound(path: string)
    requires |path| == 6 && forall k :: 0 <= k < 6 ==> path[k] == 'L' || path[k] == 'R'
    ensures LookupKey(path) in ResultsData <==> !(path[0] == 'L' && path[2] == 'R')
  {
    var key := LookupKey(path);
    assert key == [path[0], path[2], path[3], path[4], path[5]];
    assert key[..2] == [path[0], path[2]];
    if path[0] == 'L' && path[2] == 'R' {
      NoAnimeDeepDiveCategory(key);
    } else {
      ListedKeysShape(key);
      TableKeysListed();
    }
  }

  // -------------------------------------------------------------- shuffle

  /** Exchanges two cells of `a` (the destructuring swap). */
  method SwapCells<T>(a: array<T>, i: nat, j: nat)
    requires i < a.Length && j < a.Length
    modifies a
    ensures a[..] == Shuffles.Swap(old(a[..]), i, j)
  {
    a[i], a[j] := a[j], a[i];
  }

  /**
   * Shuffles `a` in place and returns it: for each cell from the last down
   * to the first, swap it with a cell at or below it.
   */
  method Shuffle<T>(a: array<T>, draws: seq<nat>) returns (r: array<T>)
    modifies a
    ensures r == a
    ensures a[..] == Shuffles.SwapDown(old(a[..]), 0, draws, 0)
    ensures multiset(a[..]) == multiset(old(a[..]))
  {
    ghost var shuffled := a[..];
    ghost var target := Shuffles.SwapDown(shuffled, 0, draws, 0);
    Shuffles.ProgressStart(shuffled, 0, draws);
    Shuffles.SwapDownPermutes(shuffled, 0, draws, 0);
    var currentIndex := a.Length;
    while currentIndex > 0
      invariant 0 <= currentIndex <= a.Length == |shuffled|
      invariant a[..] == shuffled
      invariant Shuffles.Progress(shuffled, currentIndex, 0, draws, target)
    {
      var randomIndex := Shuffles.Draw(draws, a.Length - currentIndex, currentIndex - 1);
      currentIndex := currentIndex - 1;
      SwapCells(a, currentIndex, randomIndex);
      Shuffles.ProgressStep(shuffled, currentIndex + 1, 0, draws, target, randomIndex, a[..]);
      shuffled := a[..];
    }
    Shuffles.ProgressDone(shuffled, currentIndex, 0, draws, target);
    r := a;
  }

  // ---------------------------------------------------------- getAllMovies

  /** The items of `pools`, pool by pool (`.flat()`). */
  function Flatten(pools: seq<seq<ResultItem>>): (items: seq<ResultItem>)
    ensures forall p, k :: 0 <= p < |pools| && 0 <= k < |pools[p]| ==> pools[p][k] in items
  {
    if pools == [] then [] else pools[0] + Flatten(pools[1..])
  }

  /** Every flattened item comes from one of the pools. */
  lemma {:induction false} FlattenMembers(pools: seq<seq<ResultItem>>, item: ResultItem)
    ensures item in Flatten(pools) <==> exists p :: 0 <= p < |pools| && item in pools[p]
  {
    if pools != [] {
      FlattenMembers(pools[1..], item);
      if item in Flatten(pools[1..]) {
        var p :| 0 <= p < |pools[1..]| && item in pools[1..][p];
        assert pools[p + 1] == pools[1..][p];
      }
      if exists p :: 0 <= p < |pools| && item in pools[p] {
        var p :| 0 <= p < |pools| && item in pools[p];
        if p > 0 {
          assert pools[1..][p - 1] == pools[p];
        }
      }
    }
  }

  /** All table movies, pool by pool in the table's key order. */
  function AllPoolMovies(): seq<ResultItem> {
    Flatten(Pools)
  }

  /** Whether some item of `items` has title `t`. */
  ghost predicate HasTitle(items: seq<ResultItem>, t: string) {
    exists i :: 0 <= i < |items| && items[i].title == t
  }

  /** Whether items[i] is the last item of `items` titled `t`. */
  ghost predicate IsLastWithTitle(items: seq<ResultItem>, i: int, t: string) {
    0 <= i < |items| && items[i].title == t && forall j :: i < j < |items| ==> items[j].title != t
  }

  /** A JavaScript Map from titles: keys in first-insertion order, each with its latest value. */
  datatype TitleMap = TitleMap(keys: seq<string>, values: map<string, ResultItem>) {
    ghost predicate Valid() {
      && (forall i, j :: 0 <= i < j < |keys| ==> keys[i] != keys[j])
      && (forall t :: t in values <==> t in keys)
      && (forall t :: t in values ==> values[t].title == t)
    }

    /** `map.set(item.title, item)`. */
    function Set(item: ResultItem): TitleMap {
      if item.title in values then TitleMap(keys, values[item.title := item])
      else TitleMap(keys + [item.title], values[item.title := item])
    }
  }

  /** `new Map(items.map(item => [item.title, item]))`. */
  function BuildTitleMap(items: seq<ResultItem>): (m: TitleMap)
    ensures m.Valid()
  {
    if items == [] then TitleMap([], map[])
    else BuildTitleMap(items[..|items| - 1]).Set(items[|items| - 1])
  }

  /** The map's keys are exactly the titles of the items. */
  lemma {:induction false} BuildTitleMapKeys(items: seq<ResultItem>)
    ensures forall t :: t in BuildTitleMap(items).values <==> HasTitle(items, t)
  {
    if items != [] {
      var init := items[..|items| - 1];
      BuildTitleMapKeys(init);
      forall t ensures HasTitle(items, t) <==> HasTitle(init, t) || t == items[|items| - 1].title {
        if HasTitle(items, t) {
          var i :| 0 <= i < |items| && items[i].title == t;
          if i < |init| { assert init[i] == items[i]; }
        }
        if HasTitle(init, t) {
          var i :| 0 <= i < |init| && init[i].title == t;
          assert items[i] == init[i];
        }
      }
    }
  }

  /** Each title maps to the last item that carries it. */
  lemma {:induction false} BuildTitleMapKeepsLast(items: seq<ResultItem>)
    ensures forall t :: t in BuildTitleMap(items).values ==>
      exists i :: IsLastWithTitle(items, i, t) && items[i] == BuildTitleMap(items).values[t]
  {
    if items != [] {
      var init := items[..|items| - 1];
      var last := items[|items| - 1];
      BuildTitleMapKeepsLast(init);
      var m0 := BuildTitleMap(init);
      var m := BuildTitleMap(items);
      forall t | t in m.values ensures exists i :: IsLastWithTitle(items, i, t) && items[i] == m.values[t] {
        if t == last.title {
          assert IsLastWithTitle(items, |items| - 1, t);
        } else {
          var i :| IsLastWithTitle(init, i, t) && init[i] == m0.values[t];
          assert items[i] == init[i];
          forall j | i < j < |items| ensures items[j].title != t {
            if j < |init| { assert items[j] == init[j]; }
          }
          assert IsLastWithTitle(items, i, t);
        }
      }
    }
  }

  /** The values stored under `keys`, in key order (`map.values()`). */
  function ValuesOf(keys: seq<string>, values: map<string, ResultItem>): (r: seq<ResultItem>)
    requires forall t :: t in keys ==> t in values
    ensures |r| == |keys|
    ensures forall k :: 0 <= k < |keys| ==> r[k] == values[keys[k]]
  {
    if keys == [] then [] else [values[keys[0]]] + ValuesOf(keys[1..], values)
  }

  /**
   * The movies of `items` with one movie per title
   * (`Array.from(new Map(...).values())`): titles in order of first
   * appearance, each with the last movie that carries it.
   */
  function UniqueByTitle(items: seq<ResultItem>): (unique: seq<ResultItem>)
    ensures forall i, j :: 0 <= i < j < |unique| ==> unique[i].title != unique[j].title
  {
    var m := BuildTitleMap(items);
    ValuesOf(m.keys, m.values)
  }

  /** A title occurs among the unique movies exactly when it occurs among the items. */
  lemma UniqueByTitleTitles(items: seq<ResultItem>)
    ensures forall t :: HasTitle(items, t) <==> HasTitle(UniqueByTitle(items), t)
  {
    var m := BuildTitleMap(items);
    var unique := UniqueByTitle(items);
    BuildTitleMapKeys(items);
    forall t ensures HasTitle(unique, t) <==> t in m.keys {
      if t in m.keys {
        var k :| 0 <= k < |m.keys| && m.keys[k] == t;
        assert unique[k].title == t;
      }
    }
  }

  /** Every unique movie is the last of the items that carry its title. */
  lemma UniqueByTitleKeepsLast(items: seq<ResultItem>)
    ensures forall k :: 0 <= k < |UniqueByTitle(items)| ==>
      exists i :: IsLastWithTitle(items, i, UniqueByTitle(items)[k].title) && items[i] == UniqueByTitle(items)[k]
  {
    var m := BuildTitleMap(items);
    var unique := UniqueByTitle(items);
    BuildTitleMapKeepsLast(items);
    forall k | 0 <= k < |unique|
      ensures exists i :: IsLastWithTitle(items, i, unique[k].title) && items[i] == unique[k]
    {
      assert unique[k] == m.values[m.keys[k]] && unique[k].title == m.keys[k];
    }
  }

  /** The table's movies without repeated titles, shuffled; `draws` supplies the shuffle's draws. */
  method GetAllMovies(draws: seq<nat>) returns (movies: array<ResultItem>)
    ensures fresh(movies)
    ensures movies[..] == Shuffles.SwapDown(UniqueByTitle(AllPoolMovies()), 0, draws, 0)
    ensures multiset(movies[..]) == multiset(UniqueByTitle(AllPoolMovies()))
  {
    movies := ShuffledUnique(AllPoolMovies(), draws);
  }

  /** One movie per title of `items`, copied into a fresh array and shuffled there. */
  method ShuffledUnique(items: seq<ResultItem>, draws: seq<nat>) returns (movies: array<ResultItem>)
    ensures fresh(movies)
    ensures movies[..] == Shuffles.SwapDown(UniqueByTitle(items), 0, draws, 0)
    ensures multiset(movies[..]) == multiset(UniqueByTitle(items))
  {
    var unique := UniqueByTitle(items);
    var a := new ResultItem[|unique|];
    for k := 0 to |unique|
      invariant a[..k] == unique[..k]
    {
      a[k] := unique[k];
    }
    assert a[..] == unique[..|unique|] == unique;
    movies := Shuffle(a, draws);
  }
}
