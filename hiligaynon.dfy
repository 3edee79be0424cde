/**
 * The Hiligaynon content module: constant tables of greetings, common
 * phrases, vocabulary, cultural notes, exercises and lessons, and the lookups
 * and filters over them (`HiligaynonModule` in the language package).
 */
module Hiligaynon {
  import opened Wrappers
  import opened Text
  import opened Seqs

  datatype Difficulty = Beginner | Elementary | Intermediate | Advanced

  /** A phrase with translation and pronunciation. */
  datatype Phrase = Phrase(
    hiligaynon: string,
    english: string,
    pronunciation: string,
    literal: Option<string>,
    context: Option<string>,
    audioId: Option<string>)

  datatype VocabularyWord = VocabularyWord(
    word: string,
    english: string,
    pronunciation: string,
    partOfSpeech: string,
    exampleSentence: Option<string>,
    exampleTranslation: Option<string>)

  datatype CulturalNote = CulturalNote(title: string, content: string, relatedPhrases: seq<string>)

  datatype Exercise = Exercise(
    exerciseType: string,
    question: string,
    options: Option<seq<string>>,
    correctAnswer: string,
    explanation: string,
    difficulty: Difficulty)

  /** A lesson entry; `exercises` holds positions in `Exercises`. */
  datatype Lesson = Lesson(
    title: string,
    description: string,
    objectives: seq<string>,
    vocabulary: seq<string>,
    culturalNote: string,
    exercises: seq<nat>)

  const Greetings: seq<Phrase> := [
    Phrase("Maayong aga", "Good morning", "mah-AH-yong AH-gah", None, Some("Used until about 11 AM"), None),
    Phrase("Maayong udto", "Good noon", "mah-AH-yong OOD-toh", None, Some("Used around noon (11 AM - 1 PM)"), None),
    Phrase("Maayong hapon", "Good afternoon", "mah-AH-yong HAH-pon", None, Some("Used from about 1 PM until sunset"), None),
    Phrase("Maayong gab-i", "Good evening", "mah-AH-yong gahb-EE", None, Some("Used after sunset"), None),
    Phrase("Kumusta ka?", "How are you?", "koo-MOOS-tah kah", Some("How you?"), Some("Informal, for friends and peers"), None),
    Phrase("Kumusta kamo?", "How are you? (plural/formal)", "koo-MOOS-tah KAH-moh", None, Some("Used for multiple people or to show respect"), None),
    Phrase("Maayo man", "I'm fine / I'm good", "mah-AH-yoh mahn", Some("Good indeed"), None, None),
    Phrase("Maayo man, salamat", "I'm fine, thank you", "mah-AH-yoh mahn, sah-LAH-maht", None, None, None),
    Phrase("Salamat", "Thank you", "sah-LAH-maht", None, None, None),
    Phrase("Salamat gid", "Thank you very much", "sah-LAH-maht jid", Some("Thank you indeed"), Some("'Gid' adds emphasis, like 'very much'"), None),
    Phrase("Wala sapayan", "You're welcome / It's nothing", "wah-LAH sah-PAH-yahn", Some("No problem"), None, None),
    Phrase("Oo", "Yes", "oh-OH", None, None, None),
    Phrase("Indi / Wala", "No / None", "in-DEE / wah-LAH", None, Some("'Indi' is 'no', 'Wala' is 'none/nothing'"), None),
    Phrase("Palihog", "Please", "pah-lee-HOG", None, None, None),
    Phrase("Pasensya na", "I'm sorry / Excuse me", "pah-SEN-syah nah", None, Some("Used for apologies and getting attention"), None),
    Phrase("Paalam na", "Goodbye", "pah-AH-lahm nah", Some("Permission to leave"), None, None),
    Phrase("Hasta la byernes", "See you on Friday", "HAHS-tah lah BYER-nes", None, Some("Spanish influence - days of week use Spanish"), None)
  ]

  const CommonPhrases: seq<Phrase> := [
    Phrase("Ano ang ngalan mo?", "What is your name?", "AH-noh ahng NGAH-lahn moh", None, None, None),
    Phrase("Ang ngalan ko si...", "My name is...", "ahng NGAH-lahn koh see...", Some("The name my is..."), None, None),
    Phrase("Taga-diin ka?", "Where are you from?", "tah-gah-dee-IN kah", None, None, None),
    Phrase("Taga-Iloilo ako", "I'm from Iloilo", "tah-gah-ee-loh-EE-loh AH-koh", None, None, None),
    Phrase("Ano ini?", "What is this?", "AH-noh ee-NEE", None, None, None),
    Phrase("Diin ang...?", "Where is...?", "dee-IN ahng", None, None, None),
    Phrase("Pila ini?", "How much is this?", "PEE-lah ee-NEE", None, Some("Essential for shopping and markets"), None),
    Phrase("Ano oras na?", "What time is it?", "AH-noh OH-rahs nah", None, None, None),
    Phrase("Pwede bala...?", "May I...? / Can I...?", "PWEH-deh BAH-lah", None, Some("Polite way to ask permission"), None),
    Phrase("Dali lang", "Just a moment", "dah-LEE lahng", None, None, None),
    Phrase("Sige", "Okay / Go ahead", "SEE-geh", None, Some("Very common affirmation"), None),
    Phrase("Ambot", "I don't know", "ahm-BOT", None, None, None),
    Phrase("Gutom na ako", "I'm hungry", "GOO-tohm nah AH-koh", None, None, None),
    Phrase("Uhaw na ako", "I'm thirsty", "OO-haw nah AH-koh", None, None, None),
    Phrase("Kapoy na ako", "I'm tired", "kah-POY nah AH-koh", None, None, None),
    Phrase("Nalipay ako", "I'm happy", "nah-lee-PIE AH-koh", None, None, None),
    Phrase("Masakit ang...", "My ... hurts", "mah-sah-KIT ahng", None, None, None),
    Phrase("Kaon na ta!", "Let's eat!", "kah-ON nah tah", None, Some("Filipinos often invite others to eat - very common phrase"), None),
    Phrase("Malipayon nga adlaw!", "Happy birthday!", "mah-lee-PAH-yon ngah AHD-law", Some("Happy (that) day"), None, None),
    Phrase("Palangga ta ka", "I love you", "pah-LAHNG-gah tah kah", None, Some("Romantic expression"), None),
    Phrase("Namiss ta ka", "I miss you", "nah-MISS tah kah", None, None, None)
  ]

  const NumbersWords: seq<VocabularyWord> := [
    VocabularyWord("isa", "one", "ee-SAH", "number", None, None),
    VocabularyWord("duha", "two", "doo-HAH", "number", None, None),
    VocabularyWord("tatlo", "three", "taht-LOH", "number", None, None),
    VocabularyWord("apat", "four", "AH-paht", "number", None, None),
    VocabularyWord("lima", "five", "lee-MAH", "number", None, None),
    VocabularyWord("anom", "six", "AH-nohm", "number", None, None),
    VocabularyWord("pito", "seven", "pee-TOH", "number", None, None),
    VocabularyWord("walo", "eight", "wah-LOH", "number", None, None),
    VocabularyWord("siyam", "nine", "see-YAHM", "number", None, None),
    VocabularyWord("pulo", "ten", "poo-LOH", "number", None, None)
  ]

  const PronounsWords: seq<VocabularyWord> := [
    VocabularyWord("ako", "I/me", "AH-koh", "pronoun", None, None),
    VocabularyWord("ikaw/ka", "you (singular)", "ee-KAW/kah", "pronoun", None, None),
    VocabularyWord("siya", "he/she", "see-YAH", "pronoun", None, None),
    VocabularyWord("kita", "we (inclusive)", "kee-TAH", "pronoun", None, None),
    VocabularyWord("kami", "we (exclusive)", "kah-MEE", "pronoun", None, None),
    VocabularyWord("kamo", "you (plural)", "kah-MOH", "pronoun", None, None),
    VocabularyWord("sila", "they", "see-LAH", "pronoun", None, None)
  ]

  const CommonWordsWords: seq<VocabularyWord> := [
    VocabularyWord("balay", "house", "bah-LIE", "noun", None, None),
    VocabularyWord("pagkaon", "food", "pahg-kah-ON", "noun", None, None),
    VocabularyWord("tubig", "water", "TOO-big", "noun", None, None),
    VocabularyWord("adlaw", "day/sun", "AHD-law", "noun", None, None),
    VocabularyWord("gab-i", "night", "gahb-EE", "noun", None, None),
    VocabularyWord("tawo", "person", "TAH-woh", "noun", None, None),
    VocabularyWord("bata", "child", "bah-TAH", "noun", None, None),
    VocabularyWord("nanay", "mother", "NAH-nie", "noun", None, None),
    VocabularyWord("tatay", "father", "TAH-tie", "noun", None, None),
    VocabularyWord("utod", "sibling", "OO-tohd", "noun", None, None)
  ]

  const VerbsWords: seq<VocabularyWord> := [
    VocabularyWord("kaon", "eat", "kah-ON", "verb", Some("Magkaon na kita"), Some("Let's eat")),
    VocabularyWord("inom", "drink", "ee-NOHM", "verb", None, None),
    VocabularyWord("tulog", "sleep", "TOO-log", "verb", None, None),
    VocabularyWord("lakat", "walk/go", "lah-KAHT", "verb", None, None),
    VocabularyWord("hambal", "speak/say", "hahm-BAHL", "verb", None, None),
    VocabularyWord("sulat", "write", "SOO-laht", "verb", None, None),
    VocabularyWord("basa", "read", "bah-SAH", "verb", None, None),
    VocabularyWord("obra", "work", "OHB-rah", "verb", None, None),
    VocabularyWord("bakal", "buy", "bah-KAHL", "verb", None, None),
    VocabularyWord("balik", "return/go back", "bah-LEEK", "verb", None, None)
  ]

  const AdjectivesWords: seq<VocabularyWord> := [
    VocabularyWord("maayo", "good", "mah-AH-yoh", "adjective", None, None),
    VocabularyWord("malain", "bad", "mah-lah-IN", "adjective", None, None),
    VocabularyWord("dako", "big", "dah-KOH", "adjective", None, None),
    VocabularyWord("gamay", "small", "gah-MIE", "adjective", None, None),
    VocabularyWord("matahum", "beautiful", "mah-tah-HOOM", "adjective", None, None),
    VocabularyWord("init", "hot", "ee-NIT", "adjective", None, None),
    VocabularyWord("bugnaw", "cold", "boog-NAW", "adjective", None, None),
    VocabularyWord("bag-o", "new", "bahg-OH", "adjective", None, None),
    VocabularyWord("daan", "old", "dah-AHN", "adjective", None, None),
    VocabularyWord("mabilis", "fast", "mah-BEE-lis", "adjective", None, None)
  ]

  const FoodWords: seq<VocabularyWord> := [
    VocabularyWord("kan-on", "rice (cooked)", "kahn-ON", "noun", None, None),
    VocabularyWord("isda", "fish", "ees-DAH", "noun", None, None),
    VocabularyWord("karne", "meat", "KAHR-neh", "noun", None, None),
    VocabularyWord("utan", "vegetable", "oo-TAHN", "noun", None, None),
    VocabularyWord("prutas", "fruit", "PROO-tahs", "noun", None, None),
    VocabularyWord("tinapay", "bread", "tee-nah-PIE", "noun", None, None),
    VocabularyWord("kape", "coffee", "kah-PEH", "noun", None, None),
    VocabularyWord("gatas", "milk", "gah-TAHS", "noun", None, None)
  ]

  const CulturalNotes: seq<CulturalNote> := [
    CulturalNote("The 'Gid' Emphasis",
      "Hiligaynon speakers frequently use 'gid' (pronounced 'jid') to add emphasis, similar to 'very' or 'really' in English. It makes the language sound warm and sincere. For example: 'Salamat gid' (Thank you very much), 'Maayo gid' (Very good).",
      ["Salamat gid", "Maayo gid", "Matahum gid"]),
    CulturalNote("Po and Ho - Respectful Particles",
      "While less common than in Tagalog, Hiligaynon speakers may use 'po' or 'ho' when speaking to elders or those in authority. However, using 'kamo' (plural you) instead of 'ka' (singular you) is the more traditional Hiligaynon way to show respect.",
      ["Kumusta kamo?", "Salamat po"]),
    CulturalNote("Mano Po - Blessing Gesture",
      "The 'mano' is a traditional gesture of respect where younger people take the hand of an elder and press it to their forehead while saying 'Mano po'. This is practiced throughout the Philippines and is very much alive in Hiligaynon culture.",
      ["Mano po"]),
    CulturalNote("Ilonggo Hospitality",
      "Ilonggos (Hiligaynon speakers) are known for their warmth and hospitality. The phrase 'Kaon na ta!' (Let's eat!) is constantly heard, as offering food is a fundamental expression of welcome. It's polite to accept, even just a little.",
      ["Kaon na ta!", "Sulod anay", "Pungko anay"]),
    CulturalNote("The Sweet Language",
      "Hiligaynon is often called the 'language of love' or the 'sweetest language' in the Philippines due to its melodic, gentle sound. Words tend to flow smoothly, and the intonation is less sharp than other Philippine languages.",
      ["Palangga ta ka", "Namiss ta ka"]),
    CulturalNote("Spanish Influence",
      "Like other Philippine languages, Hiligaynon has many Spanish loanwords, especially for numbers above ten, days of the week, and religious terms. Days: Lunes, Martes, Miyerkules, Huwebes, Byernes, Sabado, Domingo.",
      ["Hasta la byernes", "Buenos dias (occasionally used)"]),
    CulturalNote("Dinagyang & MassKara Festivals",
      "Iloilo's Dinagyang Festival (January) and Bacolod's MassKara Festival (October) are major cultural celebrations in Hiligaynon-speaking regions. Learning festival greetings and expressions can be very meaningful to locals.",
      ["Viva Pit Senyor!", "Malipayon nga Dinagyang!"]),
    CulturalNote("Indirect Communication",
      "Like many Filipino cultures, Hiligaynon speakers often communicate indirectly to avoid confrontation or embarrassment. 'Basi' (maybe), 'Siguro' (perhaps), and 'Ambot' (I don't know) might be used even when the speaker has a definite opinion.",
      ["Basi", "Siguro", "Ambot lang"])
  ]

  const Exercises: seq<Exercise> := [
    Exercise("multiple_choice", "How do you say 'Good morning' in Hiligaynon?",
      Some(["Maayong gab-i", "Maayong aga", "Maayong hapon", "Maayong udto"]),
      "Maayong aga",
      "'Maayong aga' means 'Good morning'. 'Maayo' means good, 'aga' means morning.",
      Beginner),
    Exercise("multiple_choice", "What is the correct response to 'Kumusta ka?'",
      Some(["Salamat", "Maayo man", "Palihog", "Paalam na"]),
      "Maayo man",
      "'Maayo man' means 'I'm fine/good'. It's the standard response to 'How are you?'",
      Beginner),
    Exercise("translate", "Translate to Hiligaynon: 'Thank you very much'",
      None,
      "Salamat gid",
      "'Salamat' means thank you, and 'gid' adds emphasis like 'very much'.",
      Beginner),
    Exercise("fill_blank", "Complete: 'Ano ang _____ mo?' (What is your name?)",
      None,
      "ngalan",
      "'Ngalan' means 'name'. The full phrase is 'Ano ang ngalan mo?' (What is your name?)",
      Beginner),
    Exercise("multiple_choice", "What is 'five' in Hiligaynon?",
      Some(["tatlo", "apat", "lima", "anom"]),
      "lima",
      "'Lima' means five. The numbers 1-5 are: isa, duha, tatlo, apat, lima.",
      Beginner),
    Exercise("matching", "Match: 'duha' means...",
      Some(["one", "two", "three", "four"]),
      "two",
      "'Duha' means two in Hiligaynon.",
      Beginner),
    Exercise("translate", "Translate to English: 'Pila ini?'",
      None,
      "How much is this?",
      "'Pila' means 'how much/many' and 'ini' means 'this'. Essential for shopping!",
      Beginner),
    Exercise("multiple_choice", "How do you say 'I'm hungry' in Hiligaynon?",
      Some(["Uhaw na ako", "Gutom na ako", "Kapoy na ako", "Nalipay ako"]),
      "Gutom na ako",
      "'Gutom' means hungry, 'na' indicates current state, 'ako' means I/me.",
      Elementary),
    Exercise("fill_blank", "Complete: 'Kaon na _____!' (Let's eat!)",
      None,
      "ta",
      "'Ta' is an inclusive 'we' marker. 'Kaon na ta!' is an invitation to eat together.",
      Elementary),
    Exercise("multiple_choice", "What does adding 'gid' to a phrase do?",
      Some(["Makes it a question", "Adds emphasis (like 'very')", "Makes it negative", "Makes it past tense"]),
      "Adds emphasis (like 'very')",
      "'Gid' adds emphasis in Hiligaynon. 'Salamat gid' = Thank you very much.",
      Beginner),
    Exercise("multiple_choice", "Which is the polite/formal 'you' in Hiligaynon?",
      Some(["ka", "ako", "kamo", "siya"]),
      "kamo",
      "'Kamo' is the plural/formal 'you', showing respect. 'Ka' is informal singular.",
      Elementary),
    Exercise("translate", "Translate to Hiligaynon: 'Where are you from?'",
      None,
      "Taga-diin ka?",
      "'Taga-' is a prefix meaning 'from', 'diin' means 'where', 'ka' means 'you'.",
      Intermediate),
    Exercise("fill_blank", "'_____ ta ka' means 'I love you'",
      None,
      "Palangga",
      "'Palangga' means love/beloved. 'Palangga ta ka' is 'I love you' in Hiligaynon.",
      Intermediate),
    Exercise("speaking", "Practice saying: 'Maayong aga! Kumusta ka?'",
      None,
      "mah-AH-yong AH-gah! koo-MOOS-tah kah?",
      "This means 'Good morning! How are you?' Remember to stress the capitalized syllables.",
      Beginner)
  ]

  const Lesson1: Lesson := Lesson(
    "Greetings & Introductions",
    "Learn to greet people and introduce yourself in Hiligaynon",
    ["Say good morning, afternoon, and evening",
        "Ask and answer 'How are you?'",
        "Introduce yourself",
        "Say thank you and goodbye"],
    ["Maayong aga", "Kumusta ka?", "Maayo man", "Salamat", "Paalam na"],
    "The 'Gid' Emphasis",
    [0, 1, 2])

  const Lesson2: Lesson := Lesson(
    "Numbers & Counting",
    "Learn to count from 1-10 in Hiligaynon",
    ["Count from one to ten",
        "Ask 'How much?'",
        "Understand basic number usage"],
    ["isa", "duha", "tatlo", "apat", "lima", "anom", "pito", "walo", "siyam", "pulo"],
    "Spanish Influence",
    [4, 5, 6])

  const Lesson3: Lesson := Lesson(
    "Daily Essentials",
    "Essential phrases for everyday situations",
    ["Express basic needs (hungry, thirsty, tired)",
        "Ask simple questions",
        "Navigate basic social situations"],
    ["Gutom na ako", "Uhaw na ako", "Kapoy na ako", "Diin ang...?", "Pila ini?"],
    "Ilonggo Hospitality",
    [7, 8])

  const Lesson4: Lesson := Lesson(
    "Polite Expressions",
    "Learn respectful and polite expressions",
    ["Use formal vs. informal 'you'",
        "Make polite requests",
        "Show respect to elders"],
    ["ka vs. kamo", "Palihog", "Pwede bala...?", "Pasensya na"],
    "Po and Ho - Respectful Particles",
    [9, 10])

  const Vocabulary: map<string, seq<VocabularyWord>> := map[
    "numbers" := NumbersWords,
    "pronouns" := PronounsWords,
    "common_words" := CommonWordsWords,
    "verbs" := VerbsWords,
    "adjectives" := AdjectivesWords,
    "food" := FoodWords
  ]

  const Lessons: map<string, Lesson> := map[
    "lesson_1" := Lesson1,
    "lesson_2" := Lesson2,
    "lesson_3" := Lesson3,
    "lesson_4" := Lesson4
  ]

  /** The greeting to use at each time of day. */
  const GreetingsByTime: map<string, string> := map[
    "morning" := "Maayong aga",
    "noon" := "Maayong udto",
    "afternoon" := "Maayong hapon",
    "evening" := "Maayong gab-i",
    "night" := "Maayong gab-i"
  ]

  /** Every phrase the module knows: the greetings, then the common phrases. */
  function AllPhrases(): seq<Phrase> {
    Greetings + CommonPhrases
  }

  /** The first phrase whose Hiligaynon text is `target`, if any. */
  function FindPhrase(target: string, phrases: seq<Phrase>): (r: Option<Phrase>)
    ensures r.Some? ==> r.value in phrases && r.value.hiligaynon == target
    ensures r.None? ==> forall i :: 0 <= i < |phrases| ==> phrases[i].hiligaynon != target
  {
    if phrases == [] then None
    else if phrases[0].hiligaynon == target then Some(phrases[0])
    else FindPhrase(target, phrases[1..])
  }

  /** The greeting text for a time of day: the mapped one, or "Maayong aga" for unknown times. */
  function GreetingTarget(timeOfDay: string): string {
    if timeOfDay in GreetingsByTime then GreetingsByTime[timeOfDay] else "Maayong aga"
  }

  /** `get_greeting`: the greeting whose text is the target for that time, else the first greeting. */
  function GetGreeting(timeOfDay: string): (r: Phrase)
    ensures r in Greetings
  {
    match FindPhrase(GreetingTarget(timeOfDay), Greetings)
    case Some(p) => p
    case None => Greetings[0]
  }

  /** Each time of day gets its own greeting, and any other value gets the morning one. */
  lemma GetGreetingByTime(timeOfDay: string)
    ensures GetGreeting(timeOfDay).hiligaynon ==
      if timeOfDay == "morning" then "Maayong aga"
      else if timeOfDay == "noon" then "Maayong udto"
      else if timeOfDay == "afternoon" then "Maayong hapon"
      else if timeOfDay == "evening" || timeOfDay == "night" then "Maayong gab-i"
      else "Maayong aga"
  {
    var target := GreetingTarget(timeOfDay);
    if timeOfDay == "noon" {
      assert target == "Maayong udto" == Greetings[1].hiligaynon;
    } else if timeOfDay == "afternoon" {
      assert target == "Maayong hapon" == Greetings[2].hiligaynon;
    } else if timeOfDay == "evening" || timeOfDay == "night" {
      assert target == "Maayong gab-i" == Greetings[3].hiligaynon;
    } else {
      assert target == "Maayong aga" == Greetings[0].hiligaynon;
    }
  }

  /** `get_phrases_by_category`: greetings, common phrases, or both for any other category. */
  function GetPhrasesByCategory(category: string): (r: seq<Phrase>)
    ensures forall p :: p in r ==> p in AllPhrases()
    ensures category == "greetings" ==> r == Greetings
    ensures category == "common" ==> r == CommonPhrases
    ensures category != "greetings" && category != "common" ==> r == AllPhrases()
  {
    if category == "greetings" then Greetings
    else if category == "common" then CommonPhrases
    else Greetings + CommonPhrases
  }

  /**
   * `get_vocabulary`: a one-entry table for a known category; the whole table
   * for no category (or an empty one) and for an unknown category.
   */
  function GetVocabulary(category: Option<string>): (r: map<string, seq<VocabularyWord>>)
    ensures forall k :: k in r ==> k in Vocabulary && r[k] == Vocabulary[k]
    ensures category.Some? && category.value in Vocabulary ==> r.Keys == {category.value}
    ensures !(category.Some? && category.value in Vocabulary) ==> r == Vocabulary
  {
    match category
    case Some(c) => if c != "" && c in Vocabulary then map[c := Vocabulary[c]] else Vocabulary
    case None => Vocabulary
  }

  function DifficultyIs(d: Difficulty): Exercise -> bool {
    (e: Exercise) => e.difficulty == d
  }

  /** `get_exercises`: the exercises of one difficulty in table order, or all of them. */
  function GetExercises(difficulty: Option<Difficulty>): (r: seq<Exercise>)
    ensures difficulty.None? ==> r == Exercises
    ensures difficulty.Some? ==> forall e :: e in r ==> e in Exercises && e.difficulty == difficulty.value
  {
    match difficulty
    case Some(d) => Filter(Exercises, DifficultyIs(d))
    case None => Exercises
  }

  /** The filtered list is the order-preserving selection of every exercise of that difficulty. */
  lemma GetExercisesComplete(d: Difficulty)
    ensures Subsequence(GetExercises(Some(d)), Exercises)
    ensures forall e :: e in Exercises && e.difficulty == d ==> e in GetExercises(Some(d))
  {
    FilterSpec(Exercises, DifficultyIs(d));
  }

  /**
   * `get_random_exercise`: some exercise of the requested difficulty (the
   * random choice is the parameter `pick`), or the first exercise when there is none.
   */
  function GetRandomExercise(difficulty: Difficulty, pick: nat): (r: Exercise)
    ensures GetExercises(Some(difficulty)) == [] ==> r == Exercises[0]
    ensures GetExercises(Some(difficulty)) != [] ==> r in GetExercises(Some(difficulty)) && r.difficulty == difficulty
  {
    var pool := GetExercises(Some(difficulty));
    if pool == [] then Exercises[0] else pool[pick % |pool|]
  }

  /** No exercise is advanced, so asking for an advanced one always yields the first exercise. */
  lemma AdvancedFallsBackToFirst(pick: nat)
    ensures GetExercises(Some(Advanced)) == []
    ensures GetRandomExercise(Advanced, pick) == Exercises[0]
  {
    forall i | 0 <= i < |Exercises| ensures !DifficultyIs(Advanced)(Exercises[i]) {
      assert Exercises[i] in Exercises;
    }
    FilterNone(Exercises, DifficultyIs(Advanced));
  }

  /** `get_lesson`: the lesson with that id, or the first lesson for an unknown id. */
  function GetLesson(lessonId: string): (r: Lesson)
    ensures lessonId in Lessons ==> r == Lessons[lessonId]
    ensures lessonId !in Lessons ==> r == Lesson1
  {
    if lessonId in Lessons then Lessons[lessonId] else Lessons["lesson_1"]
  }

  /** Every exercise index of every lesson is a valid position in `Exercises`. */
  lemma LessonExercisesInRange(lessonId: string)
    ensures forall k :: 0 <= k < |GetLesson(lessonId).exercises| ==> GetLesson(lessonId).exercises[k] < |Exercises|
  {
  }

  /** A phrase matches a lower-cased query when its Hiligaynon or English text contains it, ignoring case. */
  predicate PhraseMatches(p: Phrase, queryLower: string) {
    Contains(Lower(p.hiligaynon), queryLower) || Contains(Lower(p.english), queryLower)
  }

  function Matcher(queryLower: string): Phrase -> bool {
    (p: Phrase) => PhraseMatches(p, queryLower)
  }

  /** `search_phrase`: the phrases of the module that match the query. */
  method SearchPhrase(query: string) returns (results: seq<Phrase>)
    ensures results == Filter(AllPhrases(), Matcher(Lower(query)))
  {
    results := SearchPhrases(AllPhrases(), query);
  }

  /** The loop of `search_phrase`: walks the phrases in order and keeps those matching the query. */
  method SearchPhrases(phrases: seq<Phrase>, query: string) returns (results: seq<Phrase>)
    ensures results == Filter(phrases, Matcher(Lower(query)))
  {
    var q := Lower(query);
    results := [];
    var i := 0;
    while i < |phrases|
      invariant 0 <= i <= |phrases|
      invariant results == Filter(phrases[..i], Matcher(q))
    {
      FilterAppend(phrases[..i], [phrases[i]], Matcher(q));
      assert phrases[..i + 1] == phrases[..i] + [phrases[i]];
      if PhraseMatches(phrases[i], q) {
        results := results + [phrases[i]];
      }
      i := i + 1;
    }
    assert phrases[..i] == phrases;
  }

  /**
   * The search result is the order-preserving selection of the phrases whose
   * Hiligaynon or English text contains the query, ignoring case.
   */
  lemma SearchPhraseSpec(query: string)
    ensures Subsequence(Filter(AllPhrases(), Matcher(Lower(query))), AllPhrases())
    ensures forall p :: p in AllPhrases() ==>
      (p in Filter(AllPhrases(), Matcher(Lower(query))) <==> PhraseMatches(p, Lower(query)))
  {
    FilterSpec(AllPhrases(), Matcher(Lower(query)));
  }

  /** An empty query matches every phrase. */
  lemma SearchEmptyQuery()
    ensures Filter(AllPhrases(), Matcher(Lower(""))) == AllPhrases()
  {
    forall i | 0 <= i < |AllPhrases()| ensures Matcher(Lower(""))(AllPhrases()[i]) {
      ContainsEmpty(Lower(AllPhrases()[i].hiligaynon));
    }
    FilterAll(AllPhrases(), Matcher(Lower("")));
  }

  /** An optional text field counts as set when present and non-empty. */
  predicate IsSet(field: Option<string>) {
    field.Some? && field.value != ""
  }

  /** The bold, pronunciation and English lines every display starts with. */
  function DisplayHead(phrase: Phrase): string {
    "**" + phrase.hiligaynon + "**\n" + "*" + phrase.pronunciation + "*\n" + "English: " + phrase.english + "\n"
  }

  /**
   * `format_phrase_for_display`: the three fixed lines, then a Literal line only
   * when `literal` is set, then a Context line (with no trailing newline) only
   * when `context` is set.
   */
  method FormatPhraseForDisplay(phrase: Phrase) returns (result: string)
    ensures IsPrefix(DisplayHead(phrase), result)
    ensures result[|DisplayHead(phrase)|..] ==
      (if IsSet(phrase.literal) then "Literal: " + phrase.literal.value + "\n" else "") +
      (if IsSet(phrase.context) then "Context: " + phrase.context.value else "")
  {
    result := "**" + phrase.hiligaynon + "**\n";
    result := result + "*" + phrase.pronunciation + "*\n";
    result := result + "English: " + phrase.english + "\n";
    if IsSet(phrase.literal) {
      result := result + "Literal: " + phrase.literal.value + "\n";
    }
    if IsSet(phrase.context) {
      result := result + "Context: " + phrase.context.value;
    }
  }
}
