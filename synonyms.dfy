/** The query expander of the parts search: the static synonym table and
    the construction of `expandedQueryTokens` from the raw query tokens,
    with exact key lookup and fuzzy recovery of misspelt forms. */
module Synonyms {
  import opened Options
  import opened Levenshtein

  /** A key of the synonym object and its forms. */
  type Entry = (string, seq<string>)

  /** The synonym table as `Object.entries` lists it: keys in the order of
      their first appearance in the object literal. Three keys appear twice
      in the literal (condenseur, evaporateur, compresseur); each keeps the
      position of its first appearance and the forms of its second. */
  const Table: seq<Entry> := [
    ("vitre", ["vitre", "vitres", "glace", "glaces", "verre", "fenetre", "fenêtre", "fenêtres", "window", "custode", "lunette", "vit"]),
    ("levevitre", ["leve vitre", "lève vitre", "leve-vitre", "lève-vitre", "lèvevitre", "levevitre", "mecanisme vitre", "mécanisme vitre", "commande vitre"]),
    ("porte", ["porte", "portière", "portieres", "door", "portier", "bab"]),
    ("parebrise", ["parebrise", "pare-brise", "pare brise", "windshield", "parabrize", "brise", "vitre avant"]),
    ("retroviseur", ["retroviseur", "rétroviseur", "miroir", "mirroir", "retro", "rétro", "mirwar"]),
    ("lunette", ["lunette", "vitre arriere", "vitre arrière", "glace arriere", "glace arrière"]),
    ("amortisseur", ["amortisseur", "amorto", "amort", "suspension", "amor", "amortisseure", "amortiseur", "amor"]),
    ("biellette", ["biellette", "biellette de direction", "tirant", "bielette", "bielle direction", "biel"]),
    ("rotule", ["rotule", "rotule de direction", "rot", "rotul", "boule direction"]),
    ("triangle", ["triangle", "bras", "bras de suspension", "triangl"]),
    ("cremaillere", ["cremaillere", "crémaillère", "direction", "steering", "crem"]),
    ("cardans", ["cardan", "transmission", "arbre de transmission", "drive shaft", "trans"]),
    ("roulement", ["roulement", "bearing", "roul", "rulman", "roulman"]),
    ("suspension", ["suspension", "susp", "ressort", "spring"]),
    ("disque", ["disque", "disques", "disc", "disk", "disq", "frein avant"]),
    ("plaquette", ["plaquette", "plaquettes", "plaq", "pad", "pads", "plak", "plaket"]),
    ("etrier", ["etrier", "étrier", "etr", "caliper", "etrie", "etri"]),
    ("tambour", ["tambour", "tambours", "tam", "frein arriere", "frein arrière"]),
    ("frein", ["frein", "freinage", "brake", "frain", "break"]),
    ("maitre_cylindre", ["maitre cylindre", "maître cylindre", "master cylinder", "cylindre", "mcyl"]),
    ("phare", ["phare", "phares", "optique", "projecteur", "headlight", "light", "dhou", "lumiere", "lumière"]),
    ("feu", ["feu", "feux", "clignotant", "antibrouillard", "feux stop", "stop", "cligno", "feu position", "warning"]),
    ("ampoule", ["ampoule", "lampe", "bulb", "led", "eclairage", "éclairage"]),
    ("optique", ["optique", "bloc optique", "bloc phare", "lighthouse"]),
    ("batterie", ["batterie", "battery", "batri", "bateri", "accumulator", "accu"]),
    ("alternateur", ["alternateur", "alternator", "alter", "alterno", "alternato"]),
    ("demarreur", ["demarreur", "démarreur", "starter", "start", "demar", "démar"]),
    ("capteur", ["capteur", "sensor", "sonde", "detecteur", "détecteur", "capt"]),
    ("faisceau", ["faisceau", "câblage", "cablage", "fil", "fils", "wiring", "cable"]),
    ("boitier", ["boitier", "boîtier", "calculateur", "ecu", "module", "control unit"]),
    ("klaxon", ["klaxon", "avertisseur", "horn", "buzzer", "beeper"]),
    ("filtreair", ["filtre air", "filtre à air", "filtre-a-air", "air filter", "filtr air", "filtre admission"]),
    ("filtrehuile", ["filtre huile", "filtre à huile", "filtre-a-huile", "oil filter", "filtr huile", "filtre lubrification"]),
    ("filtrefuel", ["filtre carburant", "filtre gasoil", "filtre essence", "filtre à carburant", "fuel filter", "filtre combustible", "filtr essence"]),
    ("filtrehabitable", ["filtre habitacle", "filtre pollen", "filtre cabine", "cabin filter", "filtre climatisation", "filtre interieur", "filtr habitacle"]),
    ("filtre", ["filtre", "filter", "filtr", "filtration", "cartouche"]),
    ("courroie", ["courroie", "courroies", "belt", "courroi", "distribution", "timing belt", "accessoires"]),
    ("pompeeau", ["pompe a eau", "pompe à eau", "water pump", "pompe eau", "pump water", "pompe refroidissement"]),
    ("pompehuile", ["pompe a huile", "pompe à huile", "oil pump", "pompe huile", "lubrification"]),
    ("bougie", ["bougie", "bougies", "spark plug", "bougi", "sparkplug", "allumage"]),
    ("embrayage", ["embrayage", "kit embrayage", "clutch", "emb", "embrayag", "embreyage", "debrayage"]),
    ("volantmoteur", ["volant moteur", "volant bimasse", "flywheel", "volant", "bimasse"]),
    ("butee", ["butee", "butée", "butée embrayage", "release bearing"]),
    ("moteur", ["moteur", "engine", "bloc moteur", "culasse", "cylindre", "motor"]),
    ("soupape", ["soupape", "valve", "admission", "echappement", "échappement", "valv"]),
    ("joint", ["joint", "gasket", "seal", "etancheite", "étanchéité", "join"]),
    ("piston", ["piston", "segment", "ring", "cylindre", "chemise"]),
    ("bielle", ["bielle", "rod", "connecting rod", "biel"]),
    ("vilebrequin", ["vilebrequin", "crankshaft", "manivelle", "crank"]),
    ("radiateur", ["radiateur", "radiateur chauffage", "radiateur refroidissement", "refroidissement", "chauffage"]),
    ("condenseur", ["condenseur", "radiateur clim", "ac radiator", "cooling radiator"]),
    ("evaporateur", ["evaporateur", "évaporateur", "cooling unit", "unite refroidissement"]),
    ("compresseur", ["compresseur", "compresseur clim", "ac compressor", "comp clim", "compresso"]),
    ("thermostat", ["thermostat"]),
    ("ventilateur", ["ventilateur", "ventilateur moteur"]),
    ("pompecarburant", ["pompe carburant", "pompe essence", "fuel pump", "pompe", "pompe à essence", "pompe injection", "jauge"]),
    ("injecteur", ["injecteur", "injecteurs", "injection", "inject", "gicleur", "buse injection", "injector"]),
    ("reservoir", ["reservoir", "réservoir", "tank", "reserv", "tank essence", "tank carburant", "fuel tank"]),
    ("bouchonreservoir", ["bouchon reservoir", "bouchon réservoir", "fuel cap", "bouchon essence", "cap", "tappo"]),
    ("carburateur", ["carburateur", "carbu", "carburetor", "mixing", "melangeur"]),
    ("admission", ["admission", "intake", "collecteur admission", "pipe admission", "manifold"]),
    ("papillon", ["papillon", "throttle", "throttle body", "boitier papillon", "corps papillon"]),
    ("echappement", ["echappement", "tuyau echappement", "silencieux", "exhaust", "pot", "systeme echappement", "sortie", "tuyau"]),
    ("catalyseur", ["catalyseur", "catalytic", "cat", "convertisseur catalytique", "depollution"]),
    ("marmite", ["marmite echappement", "marmite", "silencieux arriere", "pot arriere", "rear silencer"]),
    ("ligne", ["ligne echappement", "ligne complete", "full system", "systeme complet"]),
    ("filtreclim", ["filtre clim", "filtre climatisation", "deshydrateur", "secheur"]),
    ("courroiedistribution", ["courroie distribution", "courroie dentée", "timing belt", "distribution kit"]),
    ("chaine", ["chaine", "chaîne", "chain", "distribution chain"]),
    ("cable", ["cable", "câble", "wire", "fil", "commande", "control cable"]),
    ("durite", ["durite", "durites", "tuyau", "tube", "pipe", "hose", "flexible"]),
    ("collier", ["collier", "attache", "fixation", "support", "clamp", "bracket"]),
    ("vis", ["vis", "boulon", "ecrou", "bolt", "nut", "screw", "fixation"]),
    ("clip", ["clip", "agrafe", "attache", "fastener", "rivet", "fixation rapide"]),
    ("avant", ["avant", "av"]),
    ("arriere", ["arriere", "arrière", "ar"]),
    ("gauche", ["gauche", "g", "conducteur"]),
    ("droite", ["droite", "d", "passager"]),
    ("superieur", ["superieur", "supérieur"]),
    ("inferieur", ["inferieur", "inférieur"]),
    ("interieur", ["interieur", "intérieur"]),
    ("exterieur", ["exterieur", "extérieur"])
  ]

  /** The set semantics of `expandedQueryTokens`: no token twice. */
  predicate NoDup(s: seq<string>) {
    forall i, j :: 0 <= i < j < |s| ==> s[i] != s[j]
  }

  /** `set.add(x)` on a set kept in insertion order. */
  function Add(acc: seq<string>, x: string): (r: seq<string>)
    ensures forall y :: y in r <==> y in acc || y == x
    ensures NoDup(acc) ==> NoDup(r)
  {
    if x in acc then acc else acc + [x]
  }

  /** `xs.forEach(s => set.add(s))`. */
  function AddAll(acc: seq<string>, xs: seq<string>): (r: seq<string>)
    decreases |xs|
    ensures forall y :: y in r <==> y in acc || y in xs
    ensures NoDup(acc) ==> NoDup(r)
  {
    if xs == [] then acc
    else
      var r := Add(AddAll(acc, xs[..|xs| - 1]), xs[|xs| - 1]);
      assert xs == xs[..|xs| - 1] + [xs[|xs| - 1]];
      r
  }

  function LookupFrom(table: seq<Entry>, t: string, i: nat): (r: Option<seq<string>>)
    requires i <= |table|
    decreases |table| - i
    ensures r.Some? ==> exists k :: i <= k < |table| && table[k] == (t, r.value)
    ensures r.None? ==> forall k :: i <= k < |table| ==> table[k].0 != t
  {
    if i == |table| then None
    else if table[i].0 == t then Some(table[i].1)
    else LookupFrom(table, t, i + 1)
  }

  /** `synonyms[t]` on the table's own keys: the forms of the entry whose
      key is t, or None when t is not a key. */
  function Lookup(table: seq<Entry>, t: string): (r: Option<seq<string>>)
    ensures r.Some? ==> exists k :: 0 <= k < |table| && table[k] == (t, r.value)
    ensures r.None? ==> forall k :: 0 <= k < |table| ==> table[k].0 != t
  {
    LookupFrom(table, t, 0)
  }

  /** `values.some(v => levenshteinDistance(t, v) <= 2 && t.length >= 4)`. */
  predicate FuzzyHit(t: string, forms: seq<string>) {
    exists m :: 0 <= m < |forms| && Distance(t, forms[m]) <= 2 && |t| >= 4
  }

  /** One entry of the fuzzy scan: on a hit, add the key and all its forms. */
  function FuzzyStep(acc: seq<string>, t: string, entry: Entry): seq<string> {
    if FuzzyHit(t, entry.1) then AddAll(Add(acc, entry.0), entry.1) else acc
  }

  /** The fuzzy scan over the first n entries of the table. */
  function FuzzyScan(acc: seq<string>, t: string, table: seq<Entry>, n: nat): seq<string>
    requires n <= |table|
  {
    if n == 0 then acc else FuzzyStep(FuzzyScan(acc, t, table, n - 1), t, table[n - 1])
  }

  /** The exact-key step: all forms of `synonyms[t]` when t is a key. */
  function WithSynonyms(acc: seq<string>, t: string, table: seq<Entry>): seq<string> {
    match Lookup(table, t)
    case Some(forms) => AddAll(acc, forms)
    case None => acc
  }

  /** The body of `rawTokens.forEach` for one token t. */
  function ExpandToken(acc: seq<string>, t: string, table: seq<Entry>): seq<string> {
    FuzzyScan(WithSynonyms(Add(acc, t), t, table), t, table, |table|)
  }

  /** The expanded token set after all raw tokens, in insertion order, for a
      synonym table given as a parameter. */
  function ExpandWith(table: seq<Entry>, raw: seq<string>): seq<string> {
    if raw == [] then [] else ExpandToken(ExpandWith(table, raw[..|raw| - 1]), raw[|raw| - 1], table)
  }

  /** `expandedQueryTokens`: the expansion by the synonym table. */
  function Expand(raw: seq<string>): seq<string> {
    ExpandWith(Table, raw)
  }

  /** x is recovered from token t by fuzzy matching: some entry has a form
      within distance 2 of t (and t has at least 4 characters), and x is
      that entry's key or one of its forms. */
  predicate Recovers(table: seq<Entry>, t: string, x: string) {
    exists k :: 0 <= k < |table| && FuzzyHit(t, table[k].1) && (x == table[k].0 || x in table[k].1)
  }

  /** The three ways a raw token t brings x into the expanded set. */
  predicate Expands(table: seq<Entry>, t: string, x: string) {
    || x == t
    || (Lookup(table, t).Some? && x in Lookup(table, t).value)
    || Recovers(table, t, x)
  }

  /** `values.some(...)`, stopping at the first form close enough. */
  method AnyWithinTwo(t: string, forms: seq<string>) returns (hit: bool)
    ensures hit == FuzzyHit(t, forms)
  {
    hit := false;
    var k := 0;
    while k < |forms| && !hit
      invariant 0 <= k <= |forms|
      invariant hit == exists m :: 0 <= m < k && Distance(t, forms[m]) <= 2 && |t| >= 4
    {
      var d := LevenshteinDistance(t, forms[k]);
      hit := d <= 2 && |t| >= 4;
      k := k + 1;
    }
  }

  /** `forms.forEach(s => expandedQueryTokens.add(s))`. */
  method AddEach(acc: seq<string>, forms: seq<string>) returns (r: seq<string>)
    ensures r == AddAll(acc, forms)
  {
    r := acc;
    for k := 0 to |forms|
      invariant r == AddAll(acc, forms[..k])
    {
      assert forms[..k + 1][..k] == forms[..k];
      r := Add(r, forms[k]);
    }
    assert forms[..|forms|] == forms;
  }

  /** The construction of `expandedQueryTokens` (the `rawTokens.forEach`
      loop with its exact lookup and its scan of every entry of the table
      it is given, which the search passes as `Table`). */
  method ExpandQuery(table: seq<Entry>, raw: seq<string>) returns (expanded: seq<string>)
    ensures expanded == ExpandWith(table, raw)
  {
    expanded := [];
    for i := 0 to |raw|
      invariant expanded == ExpandWith(table, raw[..i])
    {
      var t := raw[i];
      assert raw[..i + 1][..i] == raw[..i];
      expanded := Add(expanded, t);
      match Lookup(table, t) {
        case Some(forms) =>
          expanded := AddEach(expanded, forms);
        case None =>
      }
      ghost var scanned := expanded;
      for n := 0 to |table|
        invariant expanded == FuzzyScan(scanned, t, table, n)
      {
        var (key, forms) := table[n];
        var hit := AnyWithinTwo(t, forms);
        if hit {
          expanded := Add(expanded, key);
          expanded := AddEach(expanded, forms);
        }
      }
    }
    assert raw[..|raw|] == raw;
  }

  lemma {:induction false} FuzzyScanMembers(acc: seq<string>, t: string, table: seq<Entry>, n: nat)
    requires n <= |table|
    ensures forall x :: x in FuzzyScan(acc, t, table, n) <==>
      x in acc || exists k :: 0 <= k < n && FuzzyHit(t, table[k].1) && (x == table[k].0 || x in table[k].1)
    ensures NoDup(acc) ==> NoDup(FuzzyScan(acc, t, table, n))
  {
    if n > 0 {
      FuzzyScanMembers(acc, t, table, n - 1);
    }
  }

  lemma ExpandTokenMembers(acc: seq<string>, t: string, table: seq<Entry>)
    ensures forall x :: x in ExpandToken(acc, t, table) <==> x in acc || Expands(table, t, x)
    ensures NoDup(acc) ==> NoDup(ExpandToken(acc, t, table))
  {
    FuzzyScanMembers(WithSynonyms(Add(acc, t), t, table), t, table, |table|);
  }

  /** What the expanded set holds: exactly the tokens that some raw token
      brings in verbatim, through its synonyms or through fuzzy recovery;
      and it holds each token once. */
  lemma {:induction false} ExpandMembers(table: seq<Entry>, raw: seq<string>)
    ensures forall x :: x in ExpandWith(table, raw) <==> exists i :: 0 <= i < |raw| && Expands(table, raw[i], x)
    ensures NoDup(ExpandWith(table, raw))
  {
    ExpandMembership(table, raw);
    forall x
      ensures x in ExpandWith(table, raw) <==> exists i :: 0 <= i < |raw| && Expands(table, raw[i], x)
    {
      BroughtSome(table, raw, x);
    }
    ExpandNoDup(table, raw);
  }

  /** Some token of raw brings x in, token by token from the left. */
  predicate Brought(table: seq<Entry>, raw: seq<string>, x: string)
    decreases |raw|
  {
    raw != [] && (Brought(table, raw[..|raw| - 1], x) || Expands(table, raw[|raw| - 1], x))
  }

  lemma {:induction false} BroughtSome(table: seq<Entry>, raw: seq<string>, x: string)
    ensures Brought(table, raw, x) <==> exists i :: 0 <= i < |raw| && Expands(table, raw[i], x)
  {
    if raw != [] {
      var init := raw[..|raw| - 1];
      BroughtSome(table, init, x);
      if exists i :: 0 <= i < |raw| && Expands(table, raw[i], x) {
        var i :| 0 <= i < |raw| && Expands(table, raw[i], x);
        if i < |init| {
          assert init[i] == raw[i];
        }
      }
      if exists i :: 0 <= i < |init| && Expands(table, init[i], x) {
        var i :| 0 <= i < |init| && Expands(table, init[i], x);
        assert init[i] == raw[i];
      }
    }
  }

  lemma {:induction false} ExpandMembership(table: seq<Entry>, raw: seq<string>)
    ensures forall x :: x in ExpandWith(table, raw) <==> Brought(table, raw, x)
  {
    if raw != [] {
      ExpandMembership(table, raw[..|raw| - 1]);
      ExpandTokenMembers(ExpandWith(table, raw[..|raw| - 1]), raw[|raw| - 1], table);
    }
  }

  lemma {:induction false} ExpandNoDup(table: seq<Entry>, raw: seq<string>)
    ensures NoDup(ExpandWith(table, raw))
  {
    if raw != [] {
      ExpandNoDup(table, raw[..|raw| - 1]);
      ExpandTokenMembers(ExpandWith(table, raw[..|raw| - 1]), raw[|raw| - 1], table);
    }
  }

  /** The expanded set contains every raw token. */
  lemma ExpandSuperset(table: seq<Entry>, raw: seq<string>, i: nat)
    requires i < |raw|
    ensures raw[i] in ExpandWith(table, raw)
  {
    ExpandMembers(table, raw);
    assert Expands(table, raw[i], raw[i]);
  }

  /** The expanded set contains all of `synonyms[t]` for every raw token t
      that is a key. */
  lemma ExpandSynonyms(table: seq<Entry>, raw: seq<string>, i: nat, v: string)
    requires i < |raw| && Lookup(table, raw[i]).Some? && v in Lookup(table, raw[i]).value
    ensures v in ExpandWith(table, raw)
  {
    ExpandMembers(table, raw);
    assert Expands(table, raw[i], v);
  }

  /** A fuzzy hit of a raw token on an entry brings in the entry's key and
      all its forms; a hit needs a token of at least 4 characters. */
  lemma ExpandFuzzy(table: seq<Entry>, raw: seq<string>, i: nat, e: Entry)
    requires i < |raw| && e in table
    requires FuzzyHit(raw[i], e.1)
    ensures |raw[i]| >= 4
    ensures e.0 in ExpandWith(table, raw)
    ensures forall v :: v in e.1 ==> v in ExpandWith(table, raw)
  {
    ExpandMembers(table, raw);
    var k :| 0 <= k < |table| && table[k] == e;
    assert Recovers(table, raw[i], e.0);
    forall v | v in e.1
      ensures v in ExpandWith(table, raw)
    {
      assert Recovers(table, raw[i], v);
    }
  }

  /** With no raw token of 4 characters or more nothing is recovered by
      fuzzy matching: the set is the raw tokens and their synonyms. */
  lemma ExpandShortTokens(table: seq<Entry>, raw: seq<string>)
    requires forall i :: 0 <= i < |raw| ==> |raw[i]| < 4
    ensures forall x :: x in ExpandWith(table, raw) <==>
      exists i :: 0 <= i < |raw| && (x == raw[i] || (Lookup(table, raw[i]).Some? && x in Lookup(table, raw[i]).value))
  {
    ExpandMembers(table, raw);
  }

  /** A token that is itself a form of an entry recovers the whole entry
      (its distance to that form is 0) once it has 4 characters or more. */
  lemma SelfRecovers(table: seq<Entry>, raw: seq<string>, i: nat, e: Entry, m: nat)
    requires i < |raw| && e in table && m < |e.1|
    requires raw[i] == e.1[m] && |raw[i]| >= 4
    ensures e.0 in ExpandWith(table, raw)
    ensures forall v :: v in e.1 ==> v in ExpandWith(table, raw)
  {
    DistanceToSelf(raw[i]);
    ExpandFuzzy(table, raw, i, e);
  }

  /** "avant" in the query brings in "av", through its own entry. */
  lemma AvantBringsAv(raw: seq<string>, i: nat)
    requires i < |raw| && raw[i] == "avant"
    ensures "avant" in Expand(raw) && "av" in Expand(raw)
  {
    var e := ("avant", ["avant", "av"]);
    assert e in Table;
    SelfRecovers(Table, raw, i, e, 0);
  }

  /** The four-letter token "tard" is two edits from "ar", so it brings in
      the whole rear entry. */
  lemma TardBringsRear(raw: seq<string>, i: nat)
    requires i < |raw| && raw[i] == "tard"
    ensures "arriere" in Expand(raw) && "ar" in Expand(raw)
  {
    var e := ("arriere", ["arriere", "arrière", "ar"]);
    assert e in Table;
    TardIsNearAr();
    assert Distance(raw[i], e.1[2]) <= 2;
    ExpandFuzzy(Table, raw, i, e);
  }
}
