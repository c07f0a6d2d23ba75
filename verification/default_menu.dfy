/** The menu every new restaurant starts with: six categories and the
    dishes under them, each dish naming its category by position in the
    category list (`categoryIndex`). Prices are in the restaurant's currency
    units. */
module DefaultMenu {
  import opened Common
  import opened Store

  /** A seed category: its five names and its place in the menu. */
  datatype DefaultCategory = DefaultCategory(name: Names, sortOrder: int)

  /** The thirty seed dishes. */
  datatype Dish =
      SpringRolls | SatayChicken | FishCake | FreshSpringRolls | TomYumGoong
    | TomKhaGai | WontonSoup | PadThai | GreenCurryChicken | MassamanCurry
    | StirFriedBasilPork | SweetSourPork | RedCurryDuck | GrilledFishWithLime | CashewNutChicken
    | StirFriedMorningGlory | FriedRice | PineappleFriedRice | BoatNoodles | SteamedRice
    | ThaiIcedTea | FreshCoconutWater | MangoSmoothie | SinghaBeer | IcedCoffee
    | LemonSoda | Water | MangoStickyRice | CoconutIceCream | BananaInCoconutMilk

  /** The text columns of a seed dish: its five names, five descriptions
      and picture. */
  datatype DishText = DishText(name: Names, desc: Names, imageUrl: Option<string>)

  function TextOf(d: Dish): DishText
  {
    match d
    case SpringRolls => DishText(
      Names("Spring Rolls", "ปอเปี๊ยะทอด", "春卷", "春巻き", "Rollitos de primavera"),
      Names("Crispy fried spring rolls with vegetables", "ปอเปี๊ยะทอดกรอบไส้ผัก", "酥脆蔬菜春卷", "パリパリ揚げ春巻き", "Rollitos crujientes con verduras"),
      Some("https://images.unsplash.com/photo-1544025162-d76694265947?w=400&h=300&fit=crop"))
    case SatayChicken => DishText(
      Names("Satay Chicken", "สะเต๊ะไก่", "沙爹鸡肉", "サテーチキン", "Pollo satay"),
      Names("Grilled chicken skewers with peanut sauce", "ไก่ย่างเสียบไม้เสิร์ฟพร้อมซอสถั่ว", "烤鸡肉串配花生酱", "ピーナッツソース付き焼き鳥", "Brochetas de pollo con salsa de maní"),
      Some("https://images.unsplash.com/photo-1529563021893-cc83c992d75d?w=400&h=300&fit=crop"))
    case FishCake => DishText(
      Names("Fish Cake", "ทอดมันปลา", "鱼饼", "フィッシュケーキ", "Pastel de pescado"),
      Names("Thai fish cake served with cucumber relish", "ทอดมันปลาเสิร์ฟกับอาจาด", "泰式鱼饼配黄瓜酱", "キュウリ添えタイ風フィッシュケーキ", "Pastel de pescado tailandés con pepino"),
      Some("https://images.unsplash.com/photo-1565299624946-b28f40a0ae38?w=400&h=300&fit=crop"))
    case FreshSpringRolls => DishText(
      Names("Fresh Spring Rolls", "ปอเปี๊ยะสด", "越南春卷", "生春巻き", "Rollitos frescos"),
      Names("Rice paper rolls with shrimp and vegetables", "ปอเปี๊ยะสดกุ้งผัก", "鲜虾蔬菜米纸卷", "エビと野菜のライスペーパーロール", "Rollitos de papel de arroz con camarones"),
      Some("https://images.unsplash.com/photo-1562967916-eb82221dfb44?w=400&h=300&fit=crop"))
    case TomYumGoong => DishText(
      Names("Tom Yum Goong", "ต้มยำกุ้ง", "冬阴功汤", "トムヤムクン", "Tom Yum con camarones"),
      Names("Spicy and sour shrimp soup with lemongrass", "ต้มยำกุ้งน้ำใส", "酸辣虾汤配柠檬草", "レモングラスのスパイシーサワーエビスープ", "Sopa picante y ácida con camarones"),
      Some("https://images.unsplash.com/photo-1548943487-a2e4e43b4853?w=400&h=300&fit=crop"))
    case TomKhaGai => DishText(
      Names("Tom Kha Gai", "ต้มข่าไก่", "椰奶鸡汤", "トムカーガイ", "Tom Kha con pollo"),
      Names("Coconut milk soup with chicken and galangal", "ต้มข่าไก่น้ำกะทิ", "椰奶鸡肉南姜汤", "ガランガル入りココナッツチキンスープ", "Sopa de leche de coco con pollo"),
      Some("https://images.unsplash.com/photo-1569058242567-93de6f36f8eb?w=400&h=300&fit=crop"))
    case WontonSoup => DishText(
      Names("Wonton Soup", "เกี๊ยวน้ำ", "馄饨汤", "ワンタンスープ", "Sopa de wonton"),
      Names("Clear broth with pork wontons", "เกี๊ยวน้ำหมูสับ", "猪肉馄饨清汤", "豚肉ワンタンスープ", "Caldo con wontons de cerdo"),
      Some("https://images.unsplash.com/photo-1496116218417-1a781b1c416c?w=400&h=300&fit=crop"))
    case PadThai => DishText(
      Names("Pad Thai", "ผัดไทย", "泰式炒粉", "パッタイ", "Pad Thai"),
      Names("Stir-fried rice noodles with shrimp and peanuts", "ผัดไทยกุ้งสด", "虾仁炒河粉配花生", "エビとピーナッツの焼きそば", "Fideos de arroz salteados con camarones"),
      Some("https://images.unsplash.com/photo-1559314809-0d155014e29e?w=400&h=300&fit=crop"))
    case GreenCurryChicken => DishText(
      Names("Green Curry Chicken", "แกงเขียวหวานไก่", "绿咖喱鸡", "グリーンカレーチキン", "Curry verde con pollo"),
      Names("Thai green curry with chicken and Thai eggplant", "แกงเขียวหวานไก่มะเขือ", "泰式绿咖喱鸡配茄子", "タイナス入りグリーンカレーチキン", "Curry verde tailandés con pollo y berenjena"),
      Some("https://images.unsplash.com/photo-1455619452474-d2be8b1e70cd?w=400&h=300&fit=crop"))
    case MassamanCurry => DishText(
      Names("Massaman Curry", "แกงมัสมั่น", "马沙曼咖喱", "マッサマンカレー", "Curry massaman"),
      Names("Rich curry with potatoes, peanuts and chicken", "แกงมัสมั่นไก่มันฝรั่ง", "马沙曼咖喱鸡配土豆花生", "ジャガイモとピーナッツ入りマッサマンカレー", "Curry con papas, maní y pollo"),
      Some("https://images.unsplash.com/photo-1604908176997-125f25cc6f3d?w=400&h=300&fit=crop"))
    case StirFriedBasilPork => DishText(
      Names("Stir-Fried Basil Pork", "ผัดกะเพราหมู", "打抛猪肉", "バジル炒め豚肉", "Cerdo salteado con albahaca"),
      Names("Stir-fried minced pork with holy basil and fried egg", "ผัดกะเพราหมูสับ ไข่ดาว", "打抛猪肉碎配煎蛋", "ホーリーバジルと目玉焼き入り豚ひき肉炒め", "Cerdo picado salteado con albahaca y huevo frito"),
      Some("https://images.unsplash.com/photo-1569562211093-4ed0d0758f12?w=400&h=300&fit=crop"))
    case SweetSourPork => DishText(
      Names("Sweet & Sour Pork", "ผัดเปรี้ยวหวานหมู", "糖醋肉", "酢豚", "Cerdo agridulce"),
      Names("Pork stir-fried with pineapple in sweet and sour sauce", "ผัดเปรี้ยวหวานหมูกับสับปะรด", "菠萝糖醋肉", "パイナップル入り酢豚", "Cerdo salteado con piña en salsa agridulce"),
      Some("https://images.unsplash.com/photo-1525755662778-989d0524087e?w=400&h=300&fit=crop"))
    case RedCurryDuck => DishText(
      Names("Red Curry Duck", "แกงเผ็ดเป็ด", "红咖喱鸭", "レッドカレーダック", "Curry rojo con pato"),
      Names("Red curry with roasted duck and pineapple", "แกงเผ็ดเป็ดย่างสับปะรด", "红咖喱烤鸭配菠萝", "ローストダックとパイナップルのレッドカレー", "Curry rojo con pato asado y piña"),
      Some("https://images.unsplash.com/photo-1574484284002-952d92456975?w=400&h=300&fit=crop"))
    case GrilledFishWithLime => DishText(
      Names("Grilled Fish with Lime", "ปลากะพงมะนาว", "柠檬蒸鱼", "ライム焼き魚", "Pescado a la parrilla con limón"),
      Names("Grilled sea bass with spicy lime sauce", "ปลากะพงนึ่งมะนาว", "柠檬辣酱蒸鲈鱼", "スパイシーライムソースの焼きスズキ", "Lubina a la parrilla con salsa de limón picante"),
      Some("https://images.unsplash.com/photo-1519708227418-c8fd9a32b7a2?w=400&h=300&fit=crop"))
    case CashewNutChicken => DishText(
      Names("Cashew Nut Chicken", "ไก่ผัดเม็ดมะม่วงหิมพานต์", "腰果鸡丁", "カシューナッツチキン", "Pollo con anacardos"),
      Names("Stir-fried chicken with cashew nuts and dried chili", "ไก่ผัดเม็ดมะม่วงหิมพานต์พริกแห้ง", "腰果鸡丁配干辣椒", "カシューナッツと唐辛子のチキン炒め", "Pollo salteado con anacardos y chile seco"),
      Some("https://images.unsplash.com/photo-1512058564366-18510be2db19?w=400&h=300&fit=crop"))
    case StirFriedMorningGlory => DishText(
      Names("Stir-Fried Morning Glory", "ผัดผักบุ้งไฟแดง", "炒空心菜", "空心菜炒め", "Espinaca de agua salteada"),
      Names("Stir-fried morning glory with garlic and chili", "ผัดผักบุ้งไฟแดง กระเทียมพริก", "蒜辣炒空心菜", "ニンニクと唐辛子の空心菜炒め", "Espinaca de agua con ajo y chile"),
      Some("https://images.unsplash.com/photo-1567620905732-2d1ec7ab7445?w=400&h=300&fit=crop"))
    case FriedRice => DishText(
      Names("Fried Rice", "ข้าวผัด", "炒饭", "チャーハン", "Arroz frito"),
      Names("Thai-style fried rice with egg and vegetables", "ข้าวผัดไข่ผัก", "泰式蛋炒饭配蔬菜", "タイ風卵と野菜のチャーハン", "Arroz frito con huevo y verduras"),
      Some("https://images.unsplash.com/photo-1603133872878-684f208fb84b?w=400&h=300&fit=crop"))
    case PineappleFriedRice => DishText(
      Names("Pineapple Fried Rice", "ข้าวผัดสับปะรด", "菠萝炒饭", "パイナップルチャーハン", "Arroz frito con piña"),
      Names("Fried rice with pineapple, cashew nuts and raisins", "ข้าวผัดสับปะรดเม็ดมะม่วง", "菠萝炒饭配腰果葡萄干", "パイナップルとカシューナッツのチャーハン", "Arroz frito con piña, anacardos y pasas"),
      Some("https://images.unsplash.com/photo-1512058454905-6b841e7ad132?w=400&h=300&fit=crop"))
    case BoatNoodles => DishText(
      Names("Boat Noodles", "ก๋วยเตี๋ยวเรือ", "船面", "ボートヌードル", "Fideos de bote"),
      Names("Thai boat noodles with rich broth and pork", "ก๋วยเตี๋ยวเรือน้ำตก", "泰式船面配浓汤猪肉", "濃厚スープのタイ風ボートヌードル", "Fideos tailandeses con caldo rico y cerdo"),
      Some("https://images.unsplash.com/photo-1555126634-323283e090fa?w=400&h=300&fit=crop"))
    case SteamedRice => DishText(
      Names("Steamed Rice", "ข้าวสวย", "白饭", "ライス", "Arroz al vapor"),
      Names("Steamed jasmine rice", "ข้าวหอมมะลิ", "茉莉香米饭", "ジャスミンライス", "Arroz jazmín al vapor"),
      Some("https://images.unsplash.com/photo-1536304993881-460e4c8ce1db?w=400&h=300&fit=crop"))
    case ThaiIcedTea => DishText(
      Names("Thai Iced Tea", "ชาเย็น", "泰式奶茶", "タイアイスティー", "Té helado tailandés"),
      Names("Sweet Thai tea with condensed milk", "ชาไทยเย็นใส่นมข้น", "泰式炼乳奶茶", "コンデンスミルク入りタイティー", "Té tailandés dulce con leche condensada"),
      Some("https://images.unsplash.com/photo-1558857563-b371033873b8?w=400&h=300&fit=crop"))
    case FreshCoconutWater => DishText(
      Names("Fresh Coconut Water", "น้ำมะพร้าว", "鲜椰子水", "フレッシュココナッツウォーター", "Agua de coco fresca"),
      Names("Fresh young coconut water", "น้ำมะพร้าวอ่อน", "新鲜嫩椰子水", "新鮮なヤングココナッツウォーター", "Agua de coco joven fresca"),
      Some("https://images.unsplash.com/photo-1525385133512-2f3bdd585e1b?w=400&h=300&fit=crop"))
    case MangoSmoothie => DishText(
      Names("Mango Smoothie", "มะม่วงปั่น", "芒果冰沙", "マンゴースムージー", "Batido de mango"),
      Names("Fresh mango blended with ice", "มะม่วงปั่นน้ำแข็ง", "新鲜芒果冰沙", "フレッシュマンゴーのスムージー", "Mango fresco con hielo"),
      Some("https://images.unsplash.com/photo-1546173159-315724a31696?w=400&h=300&fit=crop"))
    case SinghaBeer => DishText(
      Names("Singha Beer", "เบียร์สิงห์", "胜狮啤酒", "シンハービール", "Cerveza Singha"),
      Names("Thai lager beer 330ml", "เบียร์สิงห์ 330 มล.", "泰国拉格啤酒330毫升", "タイラガービール330ml", "Cerveza lager tailandesa 330ml"),
      Some("https://images.unsplash.com/photo-1608270586620-248524c67de9?w=400&h=300&fit=crop"))
    case IcedCoffee => DishText(
      Names("Iced Coffee", "กาแฟเย็น", "冰咖啡", "アイスコーヒー", "Café helado"),
      Names("Thai-style iced coffee with milk", "กาแฟเย็นใส่นม", "泰式牛奶冰咖啡", "ミルク入りタイ風アイスコーヒー", "Café helado con leche"),
      Some("https://images.unsplash.com/photo-1461023058943-07fcbe16d735?w=400&h=300&fit=crop"))
    case LemonSoda => DishText(
      Names("Lemon Soda", "น้ำมะนาวโซดา", "柠檬苏打", "レモンソーダ", "Soda de limón"),
      Names("Fresh lime soda", "น้ำมะนาวโซดาสด", "鲜柠檬苏打水", "フレッシュライムソーダ", "Soda de lima fresca"),
      Some("https://images.unsplash.com/photo-1513558161293-cdaf765ed514?w=400&h=300&fit=crop"))
    case Water => DishText(
      Names("Water", "น้ำเปล่า", "矿泉水", "水", "Agua"),
      Names("Bottled drinking water", "น้ำดื่มขวด", "瓶装饮用水", "ボトルウォーター", "Agua embotellada"),
      Some("https://images.unsplash.com/photo-1548839140-29a749e1cf4d?w=400&h=300&fit=crop"))
    case MangoStickyRice => DishText(
      Names("Mango Sticky Rice", "ข้าวเหนียวมะม่วง", "芒果糯米饭", "マンゴーもち米", "Arroz pegajoso con mango"),
      Names("Sweet sticky rice with fresh mango and coconut milk", "ข้าวเหนียวมะม่วงราดน้ำกะทิ", "新鲜芒果糯米饭配椰奶", "フレッシュマンゴーとココナッツミルクのもち米", "Arroz glutinoso con mango y leche de coco"),
      Some("https://images.unsplash.com/photo-1596451190630-186aff535bf2?w=400&h=300&fit=crop"))
    case CoconutIceCream => DishText(
      Names("Coconut Ice Cream", "ไอศกรีมกะทิ", "椰子冰淇淋", "ココナッツアイス", "Helado de coco"),
      Names("Homemade coconut ice cream with peanut topping", "ไอศกรีมกะทิโรยถั่ว", "椰子冰淇淋配花生", "ピーナッツトッピングのココナッツアイス", "Helado de coco con maní"),
      Some("https://images.unsplash.com/photo-1570197571499-166b36435e9f?w=400&h=300&fit=crop"))
    case BananaInCoconutMilk => DishText(
      Names("Banana in Coconut Milk", "กล้วยบวชชี", "椰奶香蕉", "バナナのココナッツミルク", "Plátano en leche de coco"),
      Names("Warm banana in sweet coconut milk", "กล้วยบวชชีน้ำกะทิหวาน", "椰奶甜煮香蕉", "甘いココナッツミルクのバナナ", "Plátano en leche de coco dulce"),
      Some("https://images.unsplash.com/photo-1571115177098-24ec42ed204d?w=400&h=300&fit=crop"))
  }

  /** A seed dish as listed: the category it belongs to (an index into
      `DefaultCategories`), which dish it is (its texts are `TextOf(dish)`),
      and the columns copied into the new menu item. */
  datatype DefaultItem = DefaultItem(categoryIndex: int, dish: Dish, price: int, hasSpicy: bool, sortOrder: int)

  const DefaultCategories: seq<DefaultCategory> := [
    DefaultCategory(Names("Appetizers", "อาหารเรียกน้ำย่อย", "开胃菜", "前菜", "Aperitivos"), 1),
    DefaultCategory(Names("Soups", "ซุป", "汤", "スープ", "Sopas"), 2),
    DefaultCategory(Names("Main Course", "อาหารจานหลัก", "主菜", "メインコース", "Plato principal"), 3),
    DefaultCategory(Names("Noodles & Rice", "ก๋วยเตี๋ยวและข้าว", "面条和米饭", "麺類・ご飯", "Fideos y arroz"), 4),
    DefaultCategory(Names("Drinks", "เครื่องดื่ม", "饮料", "ドリンク", "Bebidas"), 5),
    DefaultCategory(Names("Desserts", "ของหวาน", "甜点", "デザート", "Postres"), 6)
  ]

  const DefaultItems: seq<DefaultItem> := [
    DefaultItem(0, SpringRolls, 80, false, 1),
    DefaultItem(0, SatayChicken, 100, false, 2),
    DefaultItem(0, FishCake, 90, true, 3),
    DefaultItem(0, FreshSpringRolls, 85, false, 4),
    DefaultItem(1, TomYumGoong, 150, true, 1),
    DefaultItem(1, TomKhaGai, 140, true, 2),
    DefaultItem(1, WontonSoup, 90, false, 3),
    DefaultItem(2, PadThai, 120, false, 1),
    DefaultItem(2, GreenCurryChicken, 150, true, 2),
    DefaultItem(2, MassamanCurry, 160, true, 3),
    DefaultItem(2, StirFriedBasilPork, 100, true, 4),
    DefaultItem(2, SweetSourPork, 120, false, 5),
    DefaultItem(2, RedCurryDuck, 180, true, 6),
    DefaultItem(2, GrilledFishWithLime, 220, true, 7),
    DefaultItem(2, CashewNutChicken, 140, true, 8),
    DefaultItem(2, StirFriedMorningGlory, 80, true, 9),
    DefaultItem(3, FriedRice, 90, false, 1),
    DefaultItem(3, PineappleFriedRice, 120, false, 2),
    DefaultItem(3, BoatNoodles, 70, true, 3),
    DefaultItem(3, SteamedRice, 20, false, 4),
    DefaultItem(4, ThaiIcedTea, 50, false, 1),
    DefaultItem(4, FreshCoconutWater, 60, false, 2),
    DefaultItem(4, MangoSmoothie, 70, false, 3),
    DefaultItem(4, SinghaBeer, 80, false, 4),
    DefaultItem(4, IcedCoffee, 50, false, 5),
    DefaultItem(4, LemonSoda, 45, false, 6),
    DefaultItem(4, Water, 20, false, 7),
    DefaultItem(5, MangoStickyRice, 100, false, 1),
    DefaultItem(5, CoconutIceCream, 60, false, 2),
    DefaultItem(5, BananaInCoconutMilk, 50, false, 3)
  ]

  /** Every dish names a category that exists. */
  predicate IndexesValid(items: seq<DefaultItem>, categoryCount: int)
  {
    forall i :: 0 <= i < |items| ==> 0 <= items[i].categoryIndex < categoryCount
  }

  /** Dishes are listed category by category, in category order. */
  predicate GroupedByCategory(items: seq<DefaultItem>)
  {
    forall i :: 0 < i < |items| ==> items[i - 1].categoryIndex <= items[i].categoryIndex
  }

  /** Within a category, the dishes are numbered 1, 2, 3, ... in list
      order: a dish that opens its category is number 1, any other is one
      more than the dish before it. */
  predicate NumberedWithinCategory(items: seq<DefaultItem>)
  {
    forall i :: 0 <= i < |items| ==>
      items[i].sortOrder
      == if i == 0 || items[i - 1].categoryIndex != items[i].categoryIndex then 1 else items[i - 1].sortOrder + 1
  }

  /** The six categories are numbered 1 to 6 in list order. */
  lemma DefaultCategoriesNumbered()
    ensures |DefaultCategories| == 6
    ensures forall i :: 0 <= i < |DefaultCategories| ==> DefaultCategories[i].sortOrder == i + 1
    ensures forall i, j :: 0 <= i < j < |DefaultCategories| ==> DefaultCategories[i].sortOrder < DefaultCategories[j].sortOrder
  {
  }

  /** Every seed dish belongs to an existing category, so seeding never
      skips one. */
  lemma DefaultItemsIndexesValid()
    ensures |DefaultItems| == 30
    ensures IndexesValid(DefaultItems, |DefaultCategories|)
  {
  }

  /** The seed dishes are listed category by category. */
  lemma DefaultItemsGrouped()
    ensures GroupedByCategory(DefaultItems)
  {
    GroupedBetween(1, 15);
    GroupedBetween(15, 30);
  }

  lemma {:induction false} GroupedBetween(lo: nat, hi: nat)
    requires 0 < lo <= hi <= |DefaultItems| && hi - lo <= 15
    ensures forall i :: lo <= i < hi ==> DefaultItems[i - 1].categoryIndex <= DefaultItems[i].categoryIndex
  {
  }

  /** The seed dishes are numbered from 1 within their category. */
  lemma DefaultItemsNumbered()
    ensures NumberedWithinCategory(DefaultItems)
  {
  }

  /** Every seed dish has a positive price and a picture. */
  lemma DefaultItemsPriced()
    ensures forall i :: 0 <= i < |DefaultItems| ==> DefaultItems[i].price > 0
    ensures forall i :: 0 <= i < |DefaultItems| ==> TextOf(DefaultItems[i].dish).imageUrl.Some?
  {
    EveryDishPictured();
    PricedBetween(0, 15);
    PricedBetween(15, 30);
  }

  lemma {:induction false} PricedBetween(lo: nat, hi: nat)
    requires lo <= hi <= |DefaultItems| && hi - lo <= 15
    ensures forall i :: lo <= i < hi ==> DefaultItems[i].price > 0
  {
  }

  /** Every dish of the seed menu has a picture. */
  lemma EveryDishPictured()
    ensures forall d: Dish :: TextOf(d).imageUrl.Some?
  {
  }
}
