/**
 * The trivia quiz: the score-to-title classifier, the quiz state machine
 * (intro, playing, feedback, game over), the key dispatch of the main loop
 * and the greedy line breaker used to lay out question text.
 */
module Trivia {
  import opened Options

  // ------------------------------------------------------------ titles

  /** The ten titles, from the lowest tier to the highest. */
  const TITLES: seq<string> := ["Novice", "Beginner", "Amateur", "Enthusiast", "Intermediate",
                                "Advanced", "Expert", "Master", "Trivia Guru", "Trivia Genius"]

  /** `get_trivia_level`: the title shown for a score, defined for every integer. */
  function TriviaLevel(score: int): (title: string)
    ensures title in TITLES
  {
    if score <= 5 then "Novice"
    else if score <= 10 then "Beginner"
    else if score <= 15 then "Amateur"
    else if score <= 20 then "Enthusiast"
    else if score <= 25 then "Intermediate"
    else if score <= 30 then "Advanced"
    else if score <= 35 then "Expert"
    else if score <= 40 then "Master"
    else if score <= 45 then "Trivia Guru"
    else "Trivia Genius"
  }

  /** The score is above the `j`-th threshold, 5 * `j`. */
  predicate Above(score: int, j: int)
  {
    5 * j < score
  }

  /**
   * The tier of a score: how many of the thresholds 5, 10, ..., 45 it is
   * strictly above.
   */
  function Tier(score: int): (k: nat)
    ensures k < |TITLES|
    ensures forall j :: 1 <= j <= 9 ==> (j <= k <==> Above(score, j))
  {
    if score <= 5 then 0 else if score > 45 then 9 else (score - 1) / 5
  }

  /** The classifier gives the title of the score's tier. */
  lemma LevelIsTitleOfTier(score: int)
    ensures TriviaLevel(score) == TITLES[Tier(score)]
  {
  }

  /** A higher score never gives an earlier title. */
  lemma LevelMonotone(s1: int, s2: int)
    requires s1 <= s2
    ensures exists i, j :: 0 <= i <= j < |TITLES| && TriviaLevel(s1) == TITLES[i] && TriviaLevel(s2) == TITLES[j]
  {
    LevelIsTitleOfTier(s1);
    LevelIsTitleOfTier(s2);
    var i, j := Tier(s1), Tier(s2);
    if i >= 1 {
      assert Above(s1, i);
      assert Above(s2, i);
    }
  }

  /** No title is used for two tiers, so the tier can be read back from the title. */
  lemma TitlesDistinct()
    ensures forall i, j :: 0 <= i < j < |TITLES| ==> TITLES[i] != TITLES[j]
  {
  }

  // ------------------------------------------------------------ the question bank

  /** A question: its text, four options "A) ...".."D) ..." and the correct letter. */
  datatype Question = Question(text: string, a: string, b: string, c: string, d: string, correct: char)

  /** The fixed bank of questions the quiz shuffles at start. */
  const QUESTION_BANK: seq<Question> := [
    Question("What is the capital of France?",
             "A) Paris", "B) Berlin", "C) Beijing", "D) Tokyo", 'A'),
    Question("What is the capital of Germany?",
             "A) Paris", "B) Berlin", "C) Beijing", "D) Tokyo", 'B'),
    Question("Who painted the Mona Lisa?",
             "A) Michelangelo", "B) Leonardo da Vinci", "C) Pablo Picasso", "D) Vincent van Gogh", 'B'),
    Question("What is the chemical symbol for water?",
             "A) H2O", "B) CO2", "C) O2", "D) NaCl", 'A'),
    Question("Which planet is known as the Red Planet?",
             "A) Mars", "B) Jupiter", "C) Venus", "D) Saturn", 'A'),
    Question("Who wrote 'To Kill a Mockingbird'?",
             "A) Harper Lee", "B) J.K. Rowling", "C) Ernest Hemingway", "D) F. Scott Fitzgerald", 'A'),
    Question("What is the largest mammal in the world?",
             "A) Elephant", "B) Blue whale", "C) Giraffe", "D) Hippopotamus", 'B'),
    Question("Which country is known as the Land of the Rising Sun?",
             "A) China", "B) Japan", "C) India", "D) Australia", 'B'),
    Question("What is the smallest bone in the human body?",
             "A) Femur", "B) Tibia", "C) Stapes", "D) Humerus", 'C'),
    Question("Who discovered penicillin?",
             "A) Alexander Fleming", "B) Louis Pasteur", "C) Marie Curie", "D) Albert Einstein", 'A'),
    Question("What is the primary ingredient in guacamole?",
             "A) Avocado", "B) Tomato", "C) Onion", "D) Garlic", 'A'),
    Question("Which country is home to the kangaroo?",
             "A) Australia", "B) Brazil", "C) South Africa", "D) Argentina", 'A'),
    Question("Who wrote 'Romeo and Juliet'?",
             "A) William Shakespeare", "B) Charles Dickens", "C) Jane Austen", "D) Mark Twain", 'A'),
    Question("What is the tallest mountain in the world?",
             "A) Mount Everest", "B) Mount Kilimanjaro", "C) Mount McKinley", "D) Mount Fuji", 'A'),
    Question("What is the capital of Australia?",
             "A) Sydney", "B) Melbourne", "C) Canberra", "D) Brisbane", 'C'),
    Question("Who invented the telephone?",
             "A) Alexander Graham Bell", "B) Thomas Edison", "C) Nikola Tesla", "D) Samuel Morse", 'A'),
    Question("What is the main ingredient in hummus?",
             "A) Chickpeas", "B) Lentils", "C) Black beans", "D) Kidney beans", 'A'),
    Question("What is the largest ocean on Earth?",
             "A) Pacific Ocean", "B) Atlantic Ocean", "C) Indian Ocean", "D) Arctic Ocean", 'A'),
    Question("What is the chemical symbol for gold?",
             "A) Au", "B) Ag", "C) Fe", "D) Pb", 'A'),
    Question("Which city hosted the 2016 Summer Olympics?",
             "A) Rio de Janeiro", "B) Tokyo", "C) London", "D) Beijing", 'A'),
    Question("Who painted the ceiling of the Sistine Chapel?",
             "A) Leonardo da Vinci", "B) Raphael", "C) Michelangelo", "D) Donatello", 'C'),
    Question("What is the capital of South Africa?",
             "A) Johannesburg", "B) Cape Town", "C) Pretoria", "D) Durban", 'C'),
    Question("Who wrote '1984'?",
             "A) George Orwell", "B) Aldous Huxley", "C) J.D. Salinger", "D) Franz Kafka", 'A'),
    Question("What is the largest organ in the human body?",
             "A) Liver", "B) Heart", "C) Skin", "D) Lungs", 'C'),
    Question("What is the chemical symbol for silver?",
             "A) Ag", "B) Si", "C) S", "D) Sl", 'A'),
    Question("Which planet is known as the Morning Star and Evening Star?",
             "A) Mars", "B) Venus", "C) Mercury", "D) Jupiter", 'B'),
    Question("Who is known as the Father of Geometry?",
             "A) Pythagoras", "B) Euclid", "C) Archimedes", "D) Aristotle", 'B'),
    Question("What is the national sport of Japan?",
             "A) Sumo wrestling", "B) Judo", "C) Karate", "D) Kendo", 'A'),
    Question("What is the capital of Brazil?",
             "A) Rio de Janeiro", "B) Sao Paulo", "C) Brasilia", "D) Salvador", 'C'),
    Question("Who discovered gravity when an apple fell on his head?",
             "A) Albert Einstein", "B) Isaac Newton", "C) Galileo Galilei", "D) Johannes Kepler", 'B'),
    Question("What is the chemical symbol for carbon?",
             "A) Cb", "B) Cr", "C) Co", "D) C", 'D'),
    Question("Which country is known as the Land of the Midnight Sun?",
             "A) Norway", "B) Russia", "C) Sweden", "D) Finland", 'A'),
    Question("Who wrote 'The Great Gatsby'?",
             "A) F. Scott Fitzgerald", "B) Ernest Hemingway", "C) Mark Twain", "D) William Faulkner", 'A'),
    Question("What is the longest river in the world?",
             "A) Amazon River", "B) Nile River", "C) Yangtze River", "D) Mississippi River", 'B'),
    Question("What is the capital of Canada?",
             "A) Toronto", "B) Vancouver", "C) Ottawa", "D) Montreal", 'C'),
    Question("Who was the first woman to fly solo across the Atlantic Ocean?",
             "A) Amelia Earhart", "B) Bessie Coleman", "C) Harriet Quimby", "D) Jacqueline Cochran", 'A'),
    Question("What is the chemical symbol for sodium?",
             "A) S", "B) Na", "C) N", "D) Sn", 'B'),
    Question("Which continent is the largest by land area?",
             "A) Asia", "B) Africa", "C) North America", "D) Europe", 'A'),
    Question("Who painted 'Starry Night'?",
             "A) Pablo Picasso", "B) Vincent van Gogh", "C) Claude Monet", "D) Salvador Dali", 'B'),
    Question("What is the largest desert in the world?",
             "A) Sahara Desert", "B) Gobi Desert", "C) Antarctic Desert", "D) Arabian Desert", 'A'),
    Question("What is the capital of Italy?",
             "A) Rome", "B) Milan", "C) Florence", "D) Venice", 'A'),
    Question("Who wrote 'The Catcher in the Rye'?",
             "A) J.D. Salinger", "B) John Steinbeck", "C) F. Scott Fitzgerald", "D) Ernest Hemingway", 'A'),
    Question("What is the chemical symbol for iron?",
             "A) Ir", "B) Fe", "C) I", "D) In", 'B'),
    Question("What is the largest bird in the world?",
             "A) Ostrich", "B) Bald eagle", "C) Condor", "D) Albatross", 'A'),
    Question("What is the capital of China?",
             "A) Shanghai", "B) Beijing", "C) Hong Kong", "D) Guangzhou", 'B'),
    Question("Who wrote 'The Odyssey'?",
             "A) Homer", "B) Virgil", "C) Plato", "D) Aristotle", 'A'),
    Question("What is the chemical symbol for potassium?",
             "A) K", "B) Po", "C) P", "D) Ka", 'A'),
    Question("Which planet is known as the Jewel of the Solar System?",
             "A) Venus", "B) Earth", "C) Saturn", "D) Uranus", 'C'),
    Question("Who is credited with discovering the theory of relativity?",
             "A) Isaac Newton", "B) Albert Einstein", "C) Galileo Galilei", "D) Nikola Tesla", 'B'),
    Question("What is the capital of Spain?",
             "A) Barcelona", "B) Madrid", "C) Valencia", "D) Seville", 'B'),
    Question("Who wrote 'Hamlet'?",
             "A) William Shakespeare", "B) Charles Dickens", "C) Jane Austen", "D) Mark Twain", 'A'),
    Question("What is the chemical symbol for helium?",
             "A) He", "B) H", "C) Ha", "D) Hel", 'A'),
    Question("What is the deepest part of the ocean?",
             "A) Challenger Deep", "B) Mariana Trench", "C) Puerto Rico Trench", "D) Tonga Trench", 'B'),
    Question("What is the capital of Russia?",
             "A) Moscow", "B) Saint Petersburg", "C) Novosibirsk", "D) Yekaterinburg", 'A'),
    Question("Who wrote 'Pride and Prejudice'?",
             "A) Jane Austen", "B) Emily Bronte", "C) Charlotte Bronte", "D) Agatha Christie", 'A'),
    Question("Which one of the following scientists invented the World Wide Web?",
             "A) Tim Berners-Lee", "B) Stephen Hawking", "C) Alan Turing", "D) James D. Watson", 'A'),
    Question("What is the equivalent of 100 Celsius in Fahrenheit?",
             "A) 152", "B) 182", "C) 212", "D) 232", 'C'),
    Question("What is the main ingredient of gnocchi?",
             "A) Rice", "B) Potato", "C) Pasta", "D) Chocolate", 'B'),
    Question("What is the oldest university in the UK?",
             "A) Cambridge", "B) Manchester", "C) Bath", "D) Oxford", 'D'),
    Question("Which country is the James Bond Girl L\U{E9}a Seydoux from?",
             "A) Luxembourg", "B) France", "C) Belgium", "D) Canada", 'B'),
    Question("Dom P\U{E9}rignon is known as the Father of what?",
             "A) Computing science", "B) Telephone", "C) Champagne", "D) Electricity", 'C'),
    Question("What shape is the constellation Ursa Major known to have?",
             "A) A bear", "B) A ladle", "C) A circle", "D) A book", 'B'),
    Question("In which country is Machu Picchu?",
             "A) Bolivia", "B) Argentina", "C) Colombia", "D) Peru", 'D'),
    Question("Besides white, how many colours are on the flag of Jordan?",
             "A) 2", "B) 3", "C) 4", "D) 5", 'B'),
    Question("In the sitcom Gavin and Stacey, where is Gavin from?",
             "A) Sussex", "B) Essex", "C) Wales", "D) Cornwall", 'B'),
    Question("What is the largest internal organ in the human body?",
             "A) Lungs", "B) Heart", "C) Kidneys", "D) Liver", 'D'),
    Question("What is the percentage of the Earth covered by water?",
             "A) 51%", "B) 61%", "C) 71%", "D) 81%", 'C'),
    Question("What was the name of Drakes 2023 album?",
             "A) Take Care", "B) Scorpion", "C) For All the Dogs", "D) Views", 'C'),
    Question("Which of the following British presenters never presented Strictly Comes Dancing?",
             "A) Claudia Winkleman", "B) Tess Daly", "C) Andrea Hamilton", "D) Stacey Dooley", 'D'),
    Question("Which country is the band AC/DC from?",
             "A) New Zealand", "B) UK", "C) USA", "D) Australia", 'D'),
    Question("When was the Cuban Missile Crisis?",
             "A) 1952", "B) 1972", "C) 1982", "D) 1962", 'D'),
    Question("Which of the following is not a Japanese dish?",
             "A) Sushi", "B) Ramen", "C) Babi guling", "D) Udon", 'C'),
    Question("Which sports is Steve Redgrave known for?",
             "A) Swimming", "B) Rowing", "C) Football", "D) Basketball", 'B'),
    Question("Which member of the Spice Girls was known as Sporty Spice?",
             "A) Melanie Chisholm", "B) Emma Bunton", "C) Geri Halliwell", "D) Victoria Adams", 'A'),
    Question("What is the atomic number of Hydrogen?",
             "A) 1", "B) 2", "C) 3", "D) 4", 'A'),
    Question("'Onze' is the French number for?",
             "A) 3", "B) 8", "C) 9", "D) 11", 'D'),
    Question("Which month is the aquamarine the birthstone of?",
             "A) January", "B) March", "C) June", "D) September", 'B'),
    Question("Which natural landmark is not in Australia?",
             "A) Moeraki Boulders", "B) The Great Barrier Reef", "C) Uluru", "D) 12 Apostles", 'A'),
    Question("Which one of the following islands is not in Scotland?",
             "A) Isle of Skye", "B) Islay", "C) Isle of Mull", "D) Caladesi Island", 'D'),
    Question("Who was the 40th President of the United States?",
             "A) Franklin D. Roosevelt", "B) Ronald Reagan", "C) Bill Clinton", "D) George W. Bush", 'B'),
    Question("How many players are in a cricket team?",
             "A) 8", "B) 9", "C) 10", "D) 11", 'D'),
    Question("Which actress played Sally Draper in Mad Men?",
             "A) January Jones", "B) Christina Hendricks", "C) January Jones", "D) Elisabeth Moss", 'A'),
    Question("What does NASA stand for?",
             "A) National Aeronautics and Space Administration", "B) Nautical And Space Association", "C) National Aeronautics and Space Association", "D) New Aeronautics and Spacial Administration", 'A'),
    Question("What is 'the Marbella' in Jane the Virgin?",
             "A) A dance", "B) A telenovela", "C) A hotel", "D) A police operation code name", 'C'),
    Question("Which ballroom dance originated in Germany and Austria?",
             "A) Salsa", "B) Waltz", "C) Jive", "D) Cha Cha", 'B'),
    Question("What is the capital of Iraq?",
             "A) Baghdad", "B) Islamabad", "C) Tehran", "D) Amman", 'A'),
    Question("Which country won the first Football World Cup in 1930?",
             "A) Brazil", "B) Portugal", "C) Italy", "D) Uruguay", 'D'),
    Question("In which country is the baht the currency?",
             "A) Vietnam", "B) Malaysia", "C) Indonesia", "D) Thailand", 'D'),
    Question("In which city were the 2000 Summer Olympics held?",
             "A) London", "B) Paris", "C) Barcelona", "D) Sydney", 'D'),
    Question("What colour is the 'm' from the McDonalds logo?",
             "A) Blue", "B) Red", "C) Yellow", "D) Black", 'C'),
    Question("In which city was Martin Luther King Jr. assassinated?",
             "A) New York", "B) Austin", "C) Miami", "D) Memphis", 'D'),
    Question("What is the name of the dog in Tintin?",
             "A) Snowy", "B) Flakes", "C) Dottie", "D) Luna", 'A'),
    Question("Who released the song 'Girls Just Want To Have Fun' in the 80s?",
             "A) Blondie", "B) Cyndi Lauper", "C) A-ha", "D) Bonnie Tyler", 'B')
  ]

  /**
   * `random.shuffle`: from the last position down to the second, swap the
   * element with one at an arbitrary position up to and including it. The
   * result holds the same questions, each as often as before.
   */
  method Shuffle<T>(s: seq<T>) returns (r: seq<T>)
    ensures |r| == |s|
    ensures multiset(r) == multiset(s)
  {
    r := s;
    var i := |r|;
    while i > 1
      invariant 0 <= i <= |r| == |s|
      invariant multiset(r) == multiset(s)
    {
      i := i - 1;
      var j :| 0 <= j <= i;
      r := r[i := r[j]][j := r[i]];
    }
  }

  // ------------------------------------------------------------ the quiz state machine

  datatype State = Intro | Playing | Feedback | GameOver

  /** The colour the feedback text is drawn in. */
  datatype Colour = Black | Green | Red

  /** The quiz's variable state, everything but the question list. */
  datatype Quiz = Quiz(current: int, score: int, tally: int, state: State,
                       message: string, colour: Colour, selected: Option<char>)

  const CORRECT_MESSAGE: string := "Correct! Nice one!"

  /** Feedback for a wrong answer names the correct letter. */
  function WrongMessage(correct: char): (m: string)
    ensures |m| >= 1 && m[|m| - 1] == correct
  {
    "No good, the correct answer was " + [correct]
  }

  /** A fresh quiz: nothing asked, nothing scored, on the intro screen. */
  const START: Quiz := Quiz(0, 0, 0, Intro, "", Black, None)

  /**
   * The states the quiz can reach over `n` questions: the score never exceeds
   * the number of answers, the answer count is the question index plus one
   * while feedback is shown, and no option is held while a question waits.
   */
  ghost predicate Consistent(v: Quiz, n: int)
  {
    0 <= v.score <= v.tally
    && 0 <= v.current <= n
    && v.tally == v.current + (if v.state == Feedback then 1 else 0)
    && (v.state == Feedback ==> v.current < n)
    && (v.state == Playing ==> v.selected == None)
    && (v.state == Intro ==> v.tally == 0 && v.selected == None)
  }

  /**
   * `handle_answer`: past the last question it only ends the game; otherwise
   * it counts the answer, scores it when it matches the stored letter and
   * shows the feedback.
   */
  function AnswerOutcome(v: Quiz, answer: char, qs: seq<Question>): (r: Quiz)
    requires 0 <= v.current
    ensures v.current >= |qs| ==> r == v.(state := GameOver)
    ensures 0 <= v.current < |qs| ==> r.state == Feedback && r.tally == v.tally + 1
    ensures 0 <= v.current < |qs| ==> (r.score == v.score + 1 <==> answer == qs[v.current].correct)
    ensures 0 <= v.current < |qs| ==> r.score == v.score || r.score == v.score + 1
    ensures 0 <= v.current < |qs| ==> r.colour == (if answer == qs[v.current].correct then Green else Red)
    ensures r.current == v.current && r.selected == v.selected
  {
    if v.current >= |qs| then v.(state := GameOver)
    else
      var correct := qs[v.current].correct;
      if answer == correct then
        v.(tally := v.tally + 1, score := v.score + 1, message := CORRECT_MESSAGE, colour := Green, state := Feedback)
      else
        v.(tally := v.tally + 1, message := WrongMessage(correct), colour := Red, state := Feedback)
  }

  /**
   * `next_question`: below the end it moves to the next question and clears
   * the selection and the feedback; at the end it ends the game. The index
   * never passes the number of questions.
   */
  function NextOutcome(v: Quiz, n: int): (r: Quiz)
    ensures v.current < n ==> r.current == v.current + 1 && r.state == Playing && r.selected == None && r.message == ""
    ensures v.current >= n ==> r == v.(state := GameOver)
    ensures v.current <= n ==> r.current <= n
    ensures r.score == v.score && r.tally == v.tally
  {
    if v.current < n then v.(current := v.current + 1, selected := None, message := "", state := Playing)
    else v.(state := GameOver)
  }

  /** The keys the main loop tells apart. */
  datatype Key = KeySpace | KeyQ | KeyA | KeyB | KeyC | KeyD | KeyReturn | KeyOther

  datatype Event = QuitEvent | KeyDown(key: Key)

  /** The option letter an answer key selects. */
  function Letter(k: Key): (l: Option<char>)
    ensures l.Some? <==> k in {KeyA, KeyB, KeyC, KeyD}
    ensures l.Some? ==> l.value in "ABCD"
  {
    match k
    case KeyA => Some('A')
    case KeyB => Some('B')
    case KeyC => Some('C')
    case KeyD => Some('D')
    case _ => None
  }

  /** What one event does to the quiz: carry on with a new state, start a fresh game, or exit. */
  datatype Outcome = Continue(next: Quiz) | Restart | Exit

  /**
   * The event dispatch of `main`. The window's close button and Q on the
   * intro and game-over screens exit; Space starts the quiz and starts a
   * fresh game after it; an option key while a question is shown records the
   * option and answers with it; Q during a question ends the game; Return on
   * the feedback screen moves on. Any other key changes nothing, except
   * that during a question a selection left from before is answered again.
   */
  function Transition(v: Quiz, ev: Event, qs: seq<Question>): (o: Outcome)
    requires 0 <= v.current
    ensures ev == QuitEvent ==> o == Exit
    ensures ev == KeyDown(KeySpace) && v.state == Intro ==> o == Continue(v.(state := Playing))
    ensures ev == KeyDown(KeySpace) && v.state == GameOver ==> o == Restart
    ensures ev == KeyDown(KeyQ) ==> (o == Exit <==> v.state in {Intro, GameOver})
    ensures ev == KeyDown(KeyReturn) && v.state == Feedback ==> o == Continue(NextOutcome(v, |qs|))
    ensures ev.KeyDown? && Letter(ev.key).Some? && v.state == Playing ==>
              o == Continue(AnswerOutcome(v.(selected := Letter(ev.key)), Letter(ev.key).value, qs))
    ensures ev.KeyDown? && ev.key == KeyOther && v.selected == None ==> o == Continue(v)
    ensures ev == KeyDown(KeyQ) && v.state == Playing ==>
              o == Continue(if v.selected.Some? then AnswerOutcome(v.(state := GameOver), v.selected.value, qs)
                            else v.(state := GameOver))
    ensures ev.KeyDown? && v.state == Playing && Letter(ev.key).None? && ev.key != KeyQ ==>
              o == Continue(if v.selected.Some? then AnswerOutcome(v, v.selected.value, qs) else v)
    ensures ev.KeyDown? && v.state == Feedback && ev.key != KeyReturn ==> o == Continue(v)
    ensures ev.KeyDown? && v.state in {Intro, GameOver} && ev.key !in {KeySpace, KeyQ} ==> o == Continue(v)
  {
    match ev
    case QuitEvent => Exit
    case KeyDown(k) =>
      match v.state
      case Intro =>
        if k == KeySpace then Continue(v.(state := Playing))
        else if k == KeyQ then Exit
        else Continue(v)
      case Playing =>
        var v1 :=
          if Letter(k).Some? then v.(selected := Letter(k))
          else if k == KeyQ then v.(state := GameOver)
          else v;
        if v1.selected.Some? then Continue(AnswerOutcome(v1, v1.selected.value, qs)) else Continue(v1)
      case Feedback =>
        if k == KeyReturn then Continue(NextOutcome(v, |qs|)) else Continue(v)
      case GameOver =>
        if k == KeySpace then Restart
        else if k == KeyQ then Exit
        else Continue(v)
  }

  /** A fresh quiz is consistent, and every event that keeps the game keeps it consistent. */
  lemma {:induction false} TransitionKeepsConsistent(v: Quiz, ev: Event, qs: seq<Question>)
    requires Consistent(v, |qs|)
    ensures Consistent(START, |qs|)
    ensures Transition(v, ev, qs).Continue? ==> Consistent(Transition(v, ev, qs).next, |qs|)
  {
    if ev.KeyDown? && v.state == Playing {
      var k := ev.key;
      if Letter(k).Some? {
        var v1 := v.(selected := Letter(k));
        var r := AnswerOutcome(v1, Letter(k).value, qs);
        assert Transition(v, ev, qs) == Continue(r);
        if v.current < |qs| {
          assert r.tally == v.tally + 1 && r.state == Feedback;
        }
      } else if k == KeyQ {
        assert Transition(v, ev, qs) == Continue(v.(state := GameOver));
      }
    }
  }

  /** In any reachable state the score and the answer count are bounded by the number of questions. */
  lemma ScoreBounded(v: Quiz, n: int)
    requires Consistent(v, n)
    ensures 0 <= v.score <= v.tally <= n
  {
  }

  /**
   * During a question, Q ends the game without answering: nothing is
   * recorded, counted or scored.
   */
  lemma QuitQuestionScoresNothing(v: Quiz, qs: seq<Question>)
    requires Consistent(v, |qs|) && v.state == Playing
    ensures Transition(v, KeyDown(KeyQ), qs) == Continue(v.(state := GameOver))
  {
  }

  /**
   * After the last answer, Return does not end the game: it shows an empty
   * question screen past the end, and the next option key then ends the game
   * without counting an answer.
   */
  lemma {:induction false} LastAnswerThenReturn(v: Quiz, qs: seq<Question>, k: Key)
    requires Consistent(v, |qs|) && v.state == Feedback && v.current == |qs| - 1
    requires Letter(k).Some?
    ensures Transition(v, KeyDown(KeyReturn), qs).Continue?
    ensures var w := Transition(v, KeyDown(KeyReturn), qs).next;
      w.state == Playing && w.current == |qs|
      && Transition(w, KeyDown(k), qs) == Continue(w.(selected := Letter(k), state := GameOver))
  {
    var w := NextOutcome(v, |qs|);
    assert Transition(v, KeyDown(KeyReturn), qs) == Continue(w);
    var w1 := w.(selected := Letter(k));
    assert AnswerOutcome(w1, Letter(k).value, qs) == w1.(state := GameOver);
  }

  /** The variable state of a `TriviaGame` object, as the quiz state machine sees it. */
  class TriviaGame {
    /** The bank in the order the start-up shuffle left it. */
    const questions: seq<Question>
    var currentQuestion: int
    var score: int
    var tally: int
    var state: State
    var feedbackMessage: string
    var feedbackColour: Colour
    var selectedOption: Option<char>

    function View(): Quiz
      reads this
    {
      Quiz(currentQuestion, score, tally, state, feedbackMessage, feedbackColour, selectedOption)
    }

    ghost predicate Valid()
      reads this
    {
      Consistent(View(), |questions|)
    }

    /** A new game over the questions in the order `order`, on the intro screen. */
    constructor (order: seq<Question>)
      ensures questions == order && View() == START
      ensures Valid()
    {
      questions := order;
      currentQuestion, score, tally := 0, 0, 0;
      state := Intro;
      feedbackMessage, feedbackColour, selectedOption := "", Black, None;
    }

    method NextQuestion()
      modifies this
      ensures View() == NextOutcome(old(View()), |questions|)
    {
      if currentQuestion < |questions| {
        currentQuestion := currentQuestion + 1;
        selectedOption := None;
        feedbackMessage := "";
        state := Playing;
      } else {
        state := GameOver;
      }
    }

    method HandleAnswer(answer: char)
      requires 0 <= currentQuestion
      modifies this
      ensures View() == AnswerOutcome(old(View()), answer, questions)
    {
      if currentQuestion >= |questions| {
        state := GameOver;
        return;
      }
      var correct := questions[currentQuestion].correct;
      tally := tally + 1;
      if answer == correct {
        score := score + 1;
        feedbackMessage := CORRECT_MESSAGE;
        feedbackColour := Green;
      } else {
        feedbackMessage := WrongMessage(correct);
        feedbackColour := Red;
      }
      state := Feedback;
    }
  }

  /**
   * `TriviaGame()`: a game over a shuffle of `bank`, on the intro screen; the
   * program always passes `QUESTION_BANK`.
   */
  method NewGame(bank: seq<Question>) returns (g: TriviaGame)
    ensures fresh(g) && g.Valid() && g.View() == START
    ensures multiset(g.questions) == multiset(bank)
  {
    var order := Shuffle(bank);
    g := new TriviaGame(order);
  }

  /**
   * The part of one main-loop event that works on the current game: it
   * moves the game to the state `Transition` names, or, for an exit or a
   * restart, reports it and leaves the game alone.
   */
  method Dispatch(game: TriviaGame, ev: Event) returns (o: Outcome)
    requires game.Valid()
    modifies game
    ensures o == Transition(old(game.View()), ev, game.questions)
    ensures game.Valid()
    ensures o.Continue? ==> game.View() == o.next
    ensures !o.Continue? ==> game.View() == old(game.View())
  {
    ghost var v := game.View();
    TransitionKeepsConsistent(v, ev, game.questions);
    match ev
    case QuitEvent =>
      o := Exit;
    case KeyDown(k) =>
      match game.state
      case Intro =>
        if k == KeySpace {
          game.state := Playing;
        } else if k == KeyQ {
          return Exit;
        }
        o := Continue(game.View());
      case Playing =>
        if Letter(k).Some? {
          game.selectedOption := Letter(k);
        } else if k == KeyQ {
          game.state := GameOver;
        }
        if game.selectedOption.Some? {
          game.HandleAnswer(game.selectedOption.value);
        }
        o := Continue(game.View());
      case Feedback =>
        if k == KeyReturn {
          game.NextQuestion();
        }
        o := Continue(game.View());
      case GameOver =>
        if k == KeySpace {
          o := Restart;
        } else if k == KeyQ {
          o := Exit;
        } else {
          o := Continue(game.View());
        }
  }

  /**
   * One event of the main loop: the game the loop goes on with, and whether
   * the program exits. A restart replaces the game by a new one over a fresh
   * shuffle of `bank` (`QUESTION_BANK` in the program).
   */
  method Step(game: TriviaGame, ev: Event, bank: seq<Question>) returns (next: TriviaGame, quit: bool)
    requires game.Valid()
    modifies game
    ensures next.Valid()
    ensures quit <==> Transition(old(game.View()), ev, game.questions) == Exit
    ensures Transition(old(game.View()), ev, game.questions) == Restart ==>
              fresh(next) && next.View() == START && multiset(next.questions) == multiset(bank)
    ensures Transition(old(game.View()), ev, game.questions).Continue? ==>
              next == game && game.View() == Transition(old(game.View()), ev, game.questions).next
  {
    var o := Dispatch(game, ev);
    next, quit := game, o == Exit;
    if o == Restart {
      next := NewGame(bank);
    }
  }

  // ------------------------------------------------------------ wrap_text

  /** The characters Python's `str.strip()` removes. */
  predicate IsSpace(c: char)
  {
    c == ' ' || '\t' <= c <= '\r' || '\U{1C}' <= c <= '\U{1F}' || c == '\U{85}' || c == '\U{A0}'
    || c == '\U{1680}' || '\U{2000}' <= c <= '\U{200A}' || c == '\U{2028}' || c == '\U{2029}'
    || c == '\U{202F}' || c == '\U{205F}' || c == '\U{3000}'
  }

  /** `s` without its leading whitespace. */
  function TrimStart(s: string): (r: string)
    ensures |r| <= |s| && r == s[|s| - |r|..]
    ensures forall i :: 0 <= i < |s| - |r| ==> IsSpace(s[i])
    ensures r == [] || !IsSpace(r[0])
  {
    if s != [] && IsSpace(s[0]) then TrimStart(s[1..]) else s
  }

  /** `s` without its trailing whitespace. */
  function TrimEnd(s: string): (r: string)
    ensures |r| <= |s| && r == s[..|r|]
    ensures forall i :: |r| <= i < |s| ==> IsSpace(s[i])
    ensures r == [] || !IsSpace(r[|r| - 1])
  {
    if s != [] && IsSpace(s[|s| - 1]) then TrimEnd(s[..|s| - 1]) else s
  }

  /** `r` sits in `s` at `i` with nothing but whitespace before and after it. */
  ghost predicate PaddedAt(s: string, r: string, i: int)
  {
    0 <= i <= |s| - |r| && r == s[i..i + |r|]
    && (forall k :: 0 <= k < i ==> IsSpace(s[k]))
    && (forall k :: i + |r| <= k < |s| ==> IsSpace(s[k]))
  }

  /** `str.strip()`: the longest middle part with no whitespace at either end. */
  function Strip(s: string): (r: string)
    ensures |r| <= |s|
    ensures r == [] || (!IsSpace(r[0]) && !IsSpace(r[|r| - 1]))
  {
    TrimEnd(TrimStart(s))
  }

  /**
   * What `strip()` keeps is a window of `s` with only whitespace before and
   * after it.
   */
  lemma StripIsPadded(s: string)
    ensures exists i :: PaddedAt(s, Strip(s), i)
  {
    var t := TrimStart(s);
    var r := TrimEnd(t);
    TrimsArePadded(s, t, r);
    assert PaddedAt(s, Strip(s), |s| - |t|);
  }

  /**
   * A suffix `t` of `s` after whitespace, cut to a prefix `r` before
   * whitespace, is a window of `s` with only whitespace around it.
   */
  lemma TrimsArePadded(s: string, t: string, r: string)
    requires |t| <= |s| && t == s[|s| - |t|..]
    requires forall k :: 0 <= k < |s| - |t| ==> IsSpace(s[k])
    requires |r| <= |t| && r == t[..|r|]
    requires forall k :: |r| <= k < |t| ==> IsSpace(t[k])
    ensures PaddedAt(s, r, |s| - |t|)
  {
    var i := |s| - |t|;
    forall k | 0 <= k < |r|
      ensures r[k] == s[i + k]
    {
      assert r[k] == t[k];
    }
    forall k | i + |r| <= k < |s|
      ensures IsSpace(s[k])
    {
      assert s[k] == t[k - i];
    }
  }

  /** Words joined with single spaces, the inverse of `Split`. */
  function Join(words: seq<string>): string
    requires |words| >= 1
  {
    words[0] + if |words| == 1 then "" else " " + Join(words[1..])
  }

  /**
   * `text.split(' ')`: the pieces between single spaces, empty pieces
   * included, so there is always at least one.
   */
  function Split(s: string): (words: seq<string>)
    ensures |words| >= 1
    ensures forall i :: 0 <= i < |words| ==> ' ' !in words[i]
  {
    if s == [] then [""]
    else
      var rest := Split(s[1..]);
      if s[0] == ' ' then [""] + rest else [[s[0]] + rest[0]] + rest[1..]
  }

  /** Splitting loses nothing: joining the pieces gives back the text. */
  lemma {:induction false} JoinSplit(s: string)
    ensures Join(Split(s)) == s
  {
    if s != [] {
      var rest := Split(s[1..]);
      JoinSplit(s[1..]);
      if s[0] == ' ' {
        assert Split(s)[1..] == rest;
      } else {
        var words := Split(s);
        assert words[0] == [s[0]] + rest[0];
        assert words[1..] == rest[1..];
        assert Join(rest) == rest[0] + (if |rest| == 1 then "" else " " + Join(rest[1..]));
      }
    }
  }

  /** The words each followed by a space, the way `wrap_text` accumulates a line. */
  function Spaced(words: seq<string>): string
  {
    if words == [] then "" else words[0] + " " + Spaced(words[1..])
  }

  /**
   * The lines `wrap_text` produces for `words` when the line being built so
   * far is `current`: each word is added to the line while the width test of
   * the line with it passes; when it fails, the line is closed (stripped) and
   * the word starts the next one; the last line is closed at the end.
   */
  function WrapFrom(words: seq<string>, width: string -> int, maxWidth: int, current: string): (lines: seq<string>)
    ensures 1 <= |lines| <= |words| + 1
    decreases |words|
  {
    if words == [] then [Strip(current)]
    else
      var test := current + words[0] + " ";
      if width(test) <= maxWidth then WrapFrom(words[1..], width, maxWidth, test)
      else [Strip(current)] + WrapFrom(words[1..], width, maxWidth, words[0] + " ")
  }

  /**
   * `wrap_text`, with the font's pixel width of a string given as `width`:
   * always at least one line, and no more lines than words plus one.
   */
  method WrapText(text: string, width: string -> int, maxWidth: int) returns (lines: seq<string>)
    ensures lines == WrapFrom(Split(text), width, maxWidth, "")
    ensures 1 <= |lines| <= |Split(text)| + 1
  {
    var words := Split(text);
    lines := [];
    var currentLine := "";
    for i := 0 to |words|
      invariant lines + WrapFrom(words[i..], width, maxWidth, currentLine) == WrapFrom(words, width, maxWidth, "")
    {
      assert words[i..][1..] == words[i + 1..];
      var testLine := currentLine + words[i] + " ";
      if width(testLine) <= maxWidth {
        currentLine := testLine;
      } else {
        lines := lines + [Strip(currentLine)];
        currentLine := words[i] + " ";
      }
    }
    lines := lines + [Strip(currentLine)];
  }

  /** The width test is applied to the line so far followed by the next `k` words. */
  ghost predicate Fits(width: string -> int, maxWidth: int, current: string, words: seq<string>, k: nat)
    requires k <= |words|
  {
    width(current + Spaced(words[..k])) <= maxWidth
  }

  /**
   * Testing the line so far with the next `k + 1` words is testing the line
   * with the first word added with the `k` words after it.
   */
  lemma FitsShift(width: string -> int, maxWidth: int, current: string, words: seq<string>, k: nat)
    requires k < |words|
    ensures current + Spaced(words[..k + 1]) == current + words[0] + " " + Spaced(words[1..][..k])
    ensures Fits(width, maxWidth, current, words, k + 1) == Fits(width, maxWidth, current + words[0] + " ", words[1..], k)
    ensures k == 0 ==> current + Spaced(words[..1]) == current + words[0] + " "
  {
    assert words[..k + 1][1..] == words[1..][..k];
    if k == 0 {
      assert words[1..][..0] == [];
      assert current + words[0] + " " + "" == current + words[0] + " ";
    }
  }

  /**
   * If the line so far passes the width test with each of the first `n`
   * words, the line with the first word added passes it with each of the
   * next `n - 1`.
   */
  lemma FitsTail(words: seq<string>, width: string -> int, maxWidth: int, current: string, n: nat)
    requires 1 <= n <= |words|
    requires forall k :: 1 <= k <= n ==> Fits(width, maxWidth, current, words, k)
    ensures width(current + words[0] + " ") <= maxWidth
    ensures forall k :: 1 <= k <= n - 1 ==> Fits(width, maxWidth, current + words[0] + " ", words[1..], k)
  {
    FitsShift(width, maxWidth, current, words, 0);
    assert Fits(width, maxWidth, current, words, 1);
    forall k | 1 <= k <= n - 1
      ensures Fits(width, maxWidth, current + words[0] + " ", words[1..], k)
    {
      FitsShift(width, maxWidth, current, words, k);
      assert Fits(width, maxWidth, current, words, k + 1);
    }
  }

  /**
   * While every word passes the width test, no line is broken: the whole
   * text lands on one line.
   */
  lemma {:induction false} NoBreakWhileFits(words: seq<string>, width: string -> int, maxWidth: int, current: string)
    requires forall k :: 1 <= k <= |words| ==> Fits(width, maxWidth, current, words, k)
    ensures WrapFrom(words, width, maxWidth, current) == [Strip(current + Spaced(words))]
    decreases |words|
  {
    if words == [] {
      assert current + Spaced(words) == current;
    } else {
      var test := current + words[0] + " ";
      FitsTail(words, width, maxWidth, current, |words|);
      NoBreakWhileFits(words[1..], width, maxWidth, test);
      assert Spaced(words) == words[0] + " " + Spaced(words[1..]);
      assert current + Spaced(words) == test + Spaced(words[1..]);
    }
  }

  /**
   * A line is broken exactly where the width test first fails: if the first
   * `k` words pass and word `k` does not, the first line is the line so far
   * with those `k` words, and word `k` starts the rest.
   */
  lemma {:induction false} BreakAtFirstFailure(words: seq<string>, width: string -> int, maxWidth: int, current: string, k: nat)
    requires k < |words|
    requires forall j :: 1 <= j <= k ==> Fits(width, maxWidth, current, words, j)
    requires !Fits(width, maxWidth, current, words, k + 1)
    ensures WrapFrom(words, width, maxWidth, current)
         == [Strip(current + Spaced(words[..k]))] + WrapFrom(words[k + 1..], width, maxWidth, words[k] + " ")
    decreases k
  {
    var test := current + words[0] + " ";
    FitsShift(width, maxWidth, current, words, 0);
    if k == 0 {
      assert width(test) > maxWidth;
      assert Spaced(words[..0]) == "";
      assert current + Spaced(words[..0]) == current;
    } else {
      assert Fits(width, maxWidth, current, words, 1);
      assert width(test) <= maxWidth;
      forall j | 1 <= j <= k - 1
        ensures Fits(width, maxWidth, test, words[1..], j)
      {
        FitsShift(width, maxWidth, current, words, j);
        assert Fits(width, maxWidth, current, words, j + 1);
      }
      FitsShift(width, maxWidth, current, words, k);
      var rest := words[1..];
      BreakAtFirstFailure(rest, width, maxWidth, test, k - 1);
      FitsShift(width, maxWidth, current, words, k - 1);
      assert rest[k..] == words[k + 1..] && rest[k - 1] == words[k];
      assert WrapFrom(words, width, maxWidth, current) == WrapFrom(rest, width, maxWidth, test);
    }
  }

  /** A first word that is too wide on its own leaves the first line empty. */
  lemma WideFirstWordGivesEmptyLine(words: seq<string>, width: string -> int, maxWidth: int)
    requires |words| >= 1 && width(words[0] + " ") > maxWidth
    ensures WrapFrom(words, width, maxWidth, "")[0] == ""
  {
    assert "" + words[0] + " " == words[0] + " ";
  }
}
